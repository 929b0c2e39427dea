/** The order of claims matters: core/fold.py lets the first usable claim decide, so a claim put in front of
    another hides it. */
module ClaimOrder {
  import opened Common
  import opened Banking
  import opened Events
  import opened Verdicts
  import opened Claims
  import opened Fold
  import opened FoldTheorems
  import opened Gate
  import opened GateTheorems
  import opened SmallStreams
  import opened SmallLinks

  /** A lost response on a payment that carries an RRN. */
  function LostWith(rrn: string): Observation {
    PlainEvent("e1", PaymentFailed, "pay_A", 1_000, Network, PaymentResponse, OtherReason("timeout")).(rrn := Some(rrn))
  }

  function ClaimEvidence(debited: bool, reference: Option<string>): Evidence {
    Evidence(CustomerClaimSource, Fields(false, None, Some(CustomerClaim(debited, reference)), ""), true)
  }

  /** The customer quotes a reference for a debit; and a message that claims no debit. */
  function Quoting(reference: string): Evidence { ClaimEvidence(true, Some(reference)) }

  function Complaint(): Evidence { ClaimEvidence(false, None) }

  lemma QuoteConfirms(p: Payment, rrn: string)
    requires p.rrn == Some(rrn) && AllDigits(rrn) && rrn != ""
    ensures AssessmentOf(Quoting(rrn), p) == Confirms && AssessmentOf(Complaint(), p) == NoMatch
  {
    var ours := OurReferences(p.rrn, p.upiTransactionId);
    assert NormaliseReference(p.rrn) == rrn;
    assert rrn in ours;
    assert TheirReference(CustomerClaim(true, Some(rrn)), ours, "") == rrn;
  }

  lemma FirstAssessed(c: Evidence, rest: seq<Evidence>, p: Payment)
    requires UsableClaim(c)
    ensures ClaimAssessment([c] + rest, p) == Some(AssessmentOf(c, p))
  {
    AssessmentOfInserted([], c, rest, p);
    assert [] + [c] + rest == [c] + rest;
  }

  /** Without order facts a failed payment is judged by the failure rules, on any evidence that does not
      report it settled. */
  lemma LostJudged(st: Order, p: Payment, now: int, evidence: seq<Evidence>, cfg: FoldConfig)
    requires cfg.Valid() && st.payments == [p] && !st.settledInReport && !st.orderPaidSeen
    requires p.status == Some(Failed) && !p.refundProcessed && !p.refundFailed && !SettledByProbe(st, evidence)
    ensures Judge(st, now, evidence, cfg) == JudgeFailure(p, now, evidence, cfg)
  {
    StatusOfOne(p, Captured);
    StatusOfOne(p, Authorized);
    StatusOfOne(p, Failed);
    assert JudgeOrder(st, now, evidence, cfg).None?;
  }

  /** With a claim first, the failure rules say DUPLICATE_RISK exactly when that claim confirms. */
  lemma FirstClaimRules(p: Payment, now: int, evidence: seq<Evidence>, m: ClaimMatch, cfg: FoldConfig)
    requires cfg.Valid() && ClaimAssessment(evidence, p) == Some(m) && !DowntimeMatches(evidence, p.rail)
    requires p.errorSource == Network && p.errorStep == PaymentResponse
    ensures JudgeFailure(p, now, evidence, cfg).verdict == DuplicateRisk <==> m == Confirms
  {
  }

  lemma ClaimsDecide(obs: seq<Observation>, rrn: string, now: int, c: Evidence, rest: seq<Evidence>, cfg: FoldConfig)
    requires cfg.Valid() && obs == [LostWith(rrn)] && UsableClaim(c) && forall e :: e in rest ==> UsableClaim(e)
    ensures FoldOf(obs, now, "order", [c] + rest, cfg).verdict == DuplicateRisk
            <==> AssessmentOf(c, Only(LostWith(rrn))) == Confirms
  {
    var p, evidence := Only(LostWith(rrn)), [c] + rest;
    OneEventState(LostWith(rrn));
    FirstAssessed(c, rest, p);
    assert !SettledByProbe(StateOf(obs), evidence);
    LostJudged(StateOf(obs), p, now, evidence, cfg);
    FirstClaimRules(p, now, evidence, AssessmentOf(c, p), cfg);
  }

  /** A confirming claim alone bars the order; behind a claim that no money left it is not looked at. */
  lemma EarlierClaimHidesLater(rrn: string, now: int, cfg: FoldConfig)
    requires cfg.Valid() && AllDigits(rrn) && rrn != ""
    ensures var obs := [LostWith(rrn)];
            && FoldOf(obs, now, "order", [Quoting(rrn)] + [], cfg).verdict == DuplicateRisk
            && FoldOf(obs, now, "order", [Complaint()] + [Quoting(rrn)], cfg).verdict != DuplicateRisk
  {
    var obs := [LostWith(rrn)];
    QuoteConfirms(Only(LostWith(rrn)), rrn);
    ClaimsDecide(obs, rrn, now, Quoting(rrn), [], cfg);
    ClaimsDecide(obs, rrn, now, Complaint(), [Quoting(rrn)], cfg);
  }

  // -------------------------------------------------------------- when a claim only restricts

  /** The result with a claim is DUPLICATE_RISK, or the same verdict and no surer. */
  predicate Restricts(with: VerdictResult, without: VerdictResult) {
    && (with.verdict != without.verdict ==> with.verdict == DuplicateRisk)
    && (with.verdict == without.verdict ==> with.confidence <= without.confidence)
  }

  /** At this place among this evidence every usable claim restricts, on every stream. */
  ghost predicate ClaimsRestrict(a: seq<Evidence>, b: seq<Evidence>, cfg: FoldConfig)
    requires cfg.Valid()
  {
    forall obs, now, orderId, c :: UsableClaim(c) ==>
      Restricts(FoldOf(obs, now, orderId, a + [c] + b, cfg), FoldOf(obs, now, orderId, a + b, cfg))
  }

  /** An id that no text among the evidence is. */
  function LongId(evidence: seq<Evidence>): (id: string)
    ensures id != "" && forall e :: e in evidence && e.value.Text? ==> |e.value.text| < |id|
  {
    if evidence == [] then "p"
    else
      var rest := LongId(evidence[1..]);
      assert evidence == [evidence[0]] + evidence[1..];
      if evidence[0].value.Text? then rest + evidence[0].value.text else rest
  }

  /** A failed payment under that id, with an RRN or without any reference. */
  function Unreported(evidence: seq<Evidence>, step: ErrorStep, rrn: Option<string>): Observation {
    PlainEvent("e1", PaymentFailed, LongId(evidence), 1_000, Network, step, OtherReason("timeout")).(rrn := rrn)
  }

  lemma UnreportedJudged(o: Observation, now: int, evidence: seq<Evidence>, cfg: FoldConfig)
    requires cfg.Valid() && o.eventType == PaymentFailed && AboutPayment(o)
    requires forall e :: e in evidence && e.value.Text? ==> |e.value.text| < |o.paymentId.value|
    ensures Judge(StateOf([o]), now, evidence, cfg) == JudgeFailure(Only(o), now, evidence, cfg)
  {
    OneEventState(o);
    var st := StateOf([o]);
    assert !SettledByProbe(st, evidence);
    LostJudged(st, Only(o), now, evidence, cfg);
  }

  /** Past its deadline and with no reference to match, the failure is a little surer when the claim read
      is that no money left than when it is an unverified debit. */
  lemma UnverifiedCosts(p: Payment, now: int, with: seq<Evidence>, without: seq<Evidence>, cfg: FoldConfig)
    requires cfg.Valid() && p.errorSource == Network && p.errorStep == PaymentResponse && p.failedAt.Some?
    requires now > TatDeadline(p.failedAt.value, cfg.tatBankingDays, cfg.holidays)
    requires ClaimAssessment(with, p) == Some(NoMatch) && ClaimAssessment(without, p) == Some(Unverified)
    ensures JudgeFailure(p, now, with, cfg).verdict == JudgeFailure(p, now, without, cfg).verdict == Unresolved
    ensures JudgeFailure(p, now, with, cfg).confidence == 4_500
    ensures JudgeFailure(p, now, without, cfg).confidence == 3_500
  {
  }

  lemma {:induction false} DebitUnverified(evidence: seq<Evidence>, p: Payment)
    requires FirstDebited(evidence) && p.rrn.None? && p.upiTransactionId.None?
    ensures ClaimAssessment(evidence, p) == Some(Unverified)
  {
    if !UsableClaim(evidence[0]) {
      DebitUnverified(evidence[1..], p);
    }
  }

  lemma ComplaintRaisesConfidence(a: seq<Evidence>, b: seq<Evidence>, cfg: FoldConfig)
    returns (obs: seq<Observation>, now: int)
    requires cfg.Valid() && !HoldsClaim(a) && FirstDebited(b)
    ensures var with := FoldOf(obs, now, "order", a + [Complaint()] + b, cfg);
            var without := FoldOf(obs, now, "order", a + b, cfg);
            with.verdict == without.verdict && with.confidence > without.confidence
  {
    var o := Unreported(a + b, PaymentResponse, None);
    var p := Only(o);
    obs, now := [o], TatDeadline(1_000, cfg.tatBankingDays, cfg.holidays) + 1;
    DebitUnverified(b, p);
    AssessmentOfInserted(a, Complaint(), b, p);
    InsertedClaimIsNotMissing(a, Complaint(), b);
    UnreportedJudged(o, now, a + b, cfg);
    UnreportedJudged(o, now, a + [Complaint()] + b, cfg);
    UnverifiedCosts(p, now, a + [Complaint()] + b, a + b, cfg);
  }

  /** Exactly when a claim only restricts: unless no usable claim stands before it and the first one after
      it says that money has left. */
  lemma ClaimsRestrictIff(a: seq<Evidence>, b: seq<Evidence>, cfg: FoldConfig)
    requires cfg.Valid()
    ensures ClaimsRestrict(a, b, cfg) <==> HoldsClaim(a) || !FirstDebited(b)
  {
    if HoldsClaim(a) || !FirstDebited(b) {
      forall obs, now, orderId, c | UsableClaim(c)
        ensures Restricts(FoldOf(obs, now, orderId, a + [c] + b, cfg), FoldOf(obs, now, orderId, a + b, cfg))
      {
        ClaimOnlyRestricts(obs, now, orderId, a, c, b, cfg);
      }
    } else {
      var obs, now := ComplaintRaisesConfidence(a, b, cfg);
      assert UsableClaim(Complaint());
    }
  }

  // ----------------------------------------------------- when a claim only removes permissions

  /** At this place among this evidence no usable claim makes the gate allow what it did not. */
  ghost predicate ClaimsRemovePermissions(a: seq<Evidence>, b: seq<Evidence>, cfg: FoldConfig)
    requires cfg.Valid()
  {
    forall intent, obs, now, customer, seenKeys, c ::
      UsableClaim(c) && Allowed(intent, obs, now, customer, seenKeys, cfg, a + [c] + b)
      ==> Allowed(intent, obs, now, customer, seenKeys, cfg, a + b)
  }

  /** A reference that the first usable claim confirms. */
  lemma {:induction false} ConfirmedReference(evidence: seq<Evidence>) returns (ref: string)
    requires FirstCanConfirm(evidence)
    ensures ref != "" && AllDigits(ref)
    ensures forall p: Payment :: p.rrn == Some(ref) && p.upiTransactionId.None? ==>
                                   ClaimAssessment(evidence, p) == Some(Confirms)
  {
    var e := evidence[0];
    if UsableClaim(e) {
      var quoted, found := NormaliseReference(e.value.claim.value.reference), ReferencesIn(e.value.rawText);
      ref := if quoted != "" then quoted else found[0];
      assert quoted == "" ==> found[0] in found && FirstOf(found, {ref}) == ref;
      assert OurReferences(Some(ref), None) == {ref};
    } else {
      ref := ConfirmedReference(evidence[1..]);
    }
  }

  /** Long past a failure that stopped nowhere near a debit, the claim read decides: without one that
      confirms it is CONFIRMED_FAILED. */
  lemma ExpiredRuling(p: Payment, now: int, evidence: seq<Evidence>, cfg: FoldConfig)
    requires cfg.Valid() && p.errorSource == Network && p.errorStep == OtherStep && p.failedAt.Some?
    requires now > TatDeadline(p.failedAt.value, cfg.tatBankingDays, cfg.holidays)
    ensures var r := JudgeFailure(p, now, evidence, cfg);
            && (ClaimAssessment(evidence, p) == Some(Confirms) ==> r.verdict == DuplicateRisk)
            && (ClaimAssessment(evidence, p) == Some(NoMatch) ==> r.verdict == ConfirmedFailed && r.confidence == 9_000)
  {
  }

  lemma ExpiredLinkDue(o: Observation, now: int, evidence: seq<Evidence>, cfg: FoldConfig)
    requires cfg.Valid() && Missing(evidence) == 0 && now > TatDeadline(1_000, cfg.tatBankingDays, cfg.holidays)
    requires now > TatDeadline(1_000, cfg.settleHorizonDays, cfg.holidays)
    requires AboutPayment(o) && o.eventType == PaymentFailed && o.eventTime == 1_000 && o.amount == 49_900
    requires o.errorSource == Network && o.errorStep == OtherStep && o.errorReason.OtherReason? && o.sourceOrder == ""
    requires ClaimAssessment(evidence, Only(o)) == Some(NoMatch)
    requires Judge(StateOf([o]), now, evidence, cfg) == JudgeFailure(Only(o), now, evidence, cfg)
    ensures LinkDue(StateOf([o]), FoldOf([o], now, "", evidence, cfg), [o], now, cfg, evidence)
  {
    OneEventState(o);
    ExpiredRuling(Only(o), now, evidence, cfg);
    StatusOfOne(Only(o), Captured);
  }

  /** A complaint in front of a claim that can confirm brings back the link that claim took away. */
  lemma ComplaintBringsLinkBack(a: seq<Evidence>, b: seq<Evidence>, cfg: FoldConfig)
    returns (obs: seq<Observation>, now: int)
    requires cfg.Valid() && !ClaimGivesNothing(a, b)
    ensures var link := LinkOverSms(ServiceExplicit);
            && Allowed(link, obs, now, UNKNOWN_CUSTOMER, {}, cfg, a + [Complaint()] + b)
            && !Allowed(link, obs, now, UNKNOWN_CUSTOMER, {}, cfg, a + b)
  {
    var ref := ConfirmedReference(b);
    var o, with := Unreported(a + b, OtherStep, Some(ref)), a + [Complaint()] + b;
    var tat, horizon := TatDeadline(1_000, cfg.tatBankingDays, cfg.holidays),
                        TatDeadline(1_000, cfg.settleHorizonDays, cfg.holidays);
    obs, now := [o], (if tat < horizon then horizon else tat) + 1;
    AssessmentOfInserted(a, Complaint(), b, Only(o));
    InsertedClaimIsNotMissing(a, Complaint(), b);
    UnreportedJudged(o, now, a + b, cfg);
    UnreportedJudged(o, now, with, cfg);
    ExpiredLinkDue(o, now, with, cfg);
    LinkOverSmsAllowed(LinkOverSms(ServiceExplicit), ServiceExplicit, obs, now, {}, cfg, with);
    ExpiredRuling(Only(o), now, a + b, cfg);
    LinkAllowedIff(LinkOverSms(ServiceExplicit), obs, now, UNKNOWN_CUSTOMER, {}, cfg, a + b);
  }

  /** Exactly when a claim only removes permissions. */
  lemma ClaimsRemovePermissionsIff(a: seq<Evidence>, b: seq<Evidence>, cfg: FoldConfig)
    requires cfg.Valid()
    ensures ClaimsRemovePermissions(a, b, cfg) <==> ClaimGivesNothing(a, b)
  {
    if ClaimGivesNothing(a, b) {
      forall intent, obs, now, customer, seenKeys, c
        | UsableClaim(c) && Allowed(intent, obs, now, customer, seenKeys, cfg, a + [c] + b)
        ensures Allowed(intent, obs, now, customer, seenKeys, cfg, a + b)
      {
        ClaimsOnlyRemovePermissions(intent, obs, now, customer, seenKeys, cfg, a, c, b);
      }
    } else {
      var obs, now := ComplaintBringsLinkBack(a, b, cfg);
      assert UsableClaim(Complaint());
    }
  }
}
