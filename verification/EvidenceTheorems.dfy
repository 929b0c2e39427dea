/** What each kind of evidence can do to a verdict: what has nothing to say about an order changes nothing
    wherever it stands, a probe that gave nothing only costs confidence, and an outage reaches the payments
    on its own rail and no other. */
module EvidenceTheorems {
  import opened Common
  import opened Banking
  import opened Events
  import opened Verdicts
  import opened Fold
  import opened FoldTheorems
  import opened Gate
  import opened SmallStreams

  // --------------------------------------------------------- evidence that reads alike

  /** Two lists of evidence say the same about the order. */
  ghost predicate Alike(st: Order, e: seq<Evidence>, f: seq<Evidence>) {
    && SettledByProbe(st, e) == SettledByProbe(st, f)
    && forall p :: p in st.payments && p.status == Some(Failed) ==>
         DowntimeMatches(e, p.rail) == DowntimeMatches(f, p.rail) && ClaimAssessment(e, p) == ClaimAssessment(f, p)
  }

  lemma AlikeToSiblings(st: Order, now: int, e: seq<Evidence>, f: seq<Evidence>, cfg: FoldConfig)
    requires cfg.Valid() && Alike(st, e, f)
    ensures AnyFlippable(st, now, cfg, e) == AnyFlippable(st, now, cfg, f)
    ensures LatestInFlight(st, now, cfg, e) == LatestInFlight(st, now, cfg, f)
  {
    assert forall p :: p in st.payments ==> Flippable(p, now, cfg, e) == Flippable(p, now, cfg, f);
  }

  lemma AlikeToRules(st: Order, now: int, e: seq<Evidence>, f: seq<Evidence>, cfg: FoldConfig)
    requires cfg.Valid() && Alike(st, e, f)
    ensures Judge(st, now, e, cfg) == Judge(st, now, f, cfg)
  {
    var failed := WithStatus(st.payments, Failed);
    if JudgeOrder(st, now, e, cfg).None? {
      RulesReadClaim(LatestFailure(failed), now, e, f, cfg);
    }
  }

  /** A stream under a gate: all that decides but the evidence. */
  datatype Case = Case(obs: seq<Observation>, now: int, orderId: string)

  /** The fold and the gate answer alike on both lists. */
  ghost predicate AnsweredAlike(c: Case, e: seq<Evidence>, f: seq<Evidence>, cfg: FoldConfig)
    requires cfg.Valid()
  {
    && FoldOf(c.obs, c.now, c.orderId, e, cfg) == FoldOf(c.obs, c.now, c.orderId, f, cfg)
    && forall intent, customer, seenKeys :: Vetoes(intent, c.obs, c.now, customer, seenKeys, cfg, e)
                                            == Vetoes(intent, c.obs, c.now, customer, seenKeys, cfg, f)
  }

  lemma AlikeAnswered(c: Case, e: seq<Evidence>, f: seq<Evidence>, cfg: FoldConfig)
    requires cfg.Valid() && Alike(StateOf(c.obs), e, f) && Missing(e) == Missing(f)
    ensures AnsweredAlike(c, e, f, cfg)
  {
    var st := StateOf(c.obs);
    AlikeToSiblings(st, c.now, e, f, cfg);
    AlikeFolded(st, c.obs == [], c.now, OrderIdOf(c.obs, c.orderId), e, f, cfg);
    AlikeFolded(st, c.obs == [], c.now, OrderIdOf(c.obs, ""), e, f, cfg);
    var truth := FoldOf(c.obs, c.now, "", e, cfg);
    forall intent, customer, seenKeys
      ensures Vetoes(intent, c.obs, c.now, customer, seenKeys, cfg, e)
              == Vetoes(intent, c.obs, c.now, customer, seenKeys, cfg, f)
    {
      AlikeVetoed(intent, st, truth, c.obs, c.now, customer, IdempotencyKey(intent, c.obs) in seenKeys, cfg,
                  e, f);
    }
  }

  lemma AlikeFolded(st: Order, empty: bool, now: int, orderId: string, e: seq<Evidence>, f: seq<Evidence>,
                    cfg: FoldConfig)
    requires cfg.Valid() && Alike(st, e, f) && Missing(e) == Missing(f)
    ensures FoldState(st, empty, now, orderId, e, cfg) == FoldState(st, empty, now, orderId, f, cfg)
  {
    AlikeToSiblings(st, now, e, f, cfg);
    AlikeToRules(st, now, e, f, cfg);
  }

  lemma AlikeVetoed(intent: RecoveryIntent, st: Order, truth: VerdictResult, obs: seq<Observation>, now: int,
                    customer: CustomerContext, seen: bool, cfg: FoldConfig, e: seq<Evidence>, f: seq<Evidence>)
    requires cfg.Valid() && AnyFlippable(st, now, cfg, e) == AnyFlippable(st, now, cfg, f)
    requires LatestInFlight(st, now, cfg, e) == LatestInFlight(st, now, cfg, f)
    ensures VetoesOn(intent, st, truth, obs, now, customer, seen, cfg, e)
            == VetoesOn(intent, st, truth, obs, now, customer, seen, cfg, f)
  {
  }

  // ------------------------------------------------------------------ silent evidence

  /** An answered probe that reports an outage now, of this rail or of every rail. */
  predicate ReportsOutage(e: Evidence) {
    e.source == DowntimeSource && e.available && e.value.Fields? && e.value.active
  }

  /** The outage can be one of a payment on this rail: one of the two is unknown, or they agree. */
  predicate OnRail(e: Evidence, rail: Option<string>)
    requires e.value.Fields?
  {
    e.value.rail.None? || rail.None? || e.value.rail == rail
  }

  /** An answered settlement probe that names a payment. */
  predicate ReportsSettled(e: Evidence, id: string) {
    e.source == SettlementSource && e.available && e.value == Text(id) && id != ""
  }

  /** The evidence has something to say about the order: a claim, an outage on the rail of a failed payment,
      or the settlement of a payment. */
  ghost predicate Speaks(e: Evidence, st: Order) {
    || UsableClaim(e)
    || (ReportsOutage(e) && exists p :: p in st.payments && p.status == Some(Failed) && OnRail(e, p.rail))
    || (exists p :: p in st.payments && ReportsSettled(e, p.id))
  }

  lemma OutageInserted(a: seq<Evidence>, e: Evidence, b: seq<Evidence>, rail: Option<string>)
    ensures DowntimeMatches(a + [e] + b, rail)
            <==> DowntimeMatches(a + b, rail) || (ReportsOutage(e) && OnRail(e, rail))
  {
    var with, without := a + [e] + b, a + b;
    assert e in with && forall x :: x in with <==> x in without || x == e;
    if DowntimeMatches(without, rail) {
      var x :| x in without && ReportsOutage(x) && OnRail(x, rail);
      assert x in with;
    }
  }

  lemma NamedIsThere(st: Order, p: Payment)
    requires p in st.payments
    ensures IndexOf(st.payments, p.id) < |st.payments|
  {
    var k :| 0 <= k < |st.payments| && st.payments[k] == p;
  }

  lemma SettledInserted(st: Order, a: seq<Evidence>, e: Evidence, b: seq<Evidence>)
    ensures SettledByProbe(st, a + [e] + b)
            <==> SettledByProbe(st, a + b) || exists p :: p in st.payments && ReportsSettled(e, p.id)
  {
    var with, without := a + [e] + b, a + b;
    assert e in with && forall x :: x in with <==> x in without || x == e;
    if p :| p in st.payments && ReportsSettled(e, p.id) {
      NamedIsThere(st, p);
    }
    if SettledByProbe(st, without) {
      var x :| x in without && x.source == SettlementSource && x.available && x.value.Text? && x.value.text != ""
               && IndexOf(st.payments, x.value.text) < |st.payments|;
      assert x in with;
    }
    if SettledByProbe(st, with) && !SettledByProbe(st, without) {
      assert ReportsSettled(e, st.payments[IndexOf(st.payments, e.value.text)].id);
    }
  }

  lemma ClaimNotInserted(a: seq<Evidence>, e: Evidence, b: seq<Evidence>, p: Payment)
    requires !UsableClaim(e)
    ensures ClaimAssessment(a + [e] + b, p) == ClaimAssessment(a + b, p)
  {
    AssessmentOfJoined(a, b, p);
    AssessmentOfJoined(a + [e], b, p);
    AssessmentOfJoined(a, [e], p);
    assert [e][1..] == [];
  }

  lemma SilentIsAlike(st: Order, a: seq<Evidence>, e: Evidence, b: seq<Evidence>)
    requires !Speaks(e, st)
    ensures Alike(st, a + [e] + b, a + b)
  {
    SettledInserted(st, a, e, b);
    forall p | p in st.payments && p.status == Some(Failed)
      ensures DowntimeMatches(a + [e] + b, p.rail) == DowntimeMatches(a + b, p.rail)
      ensures ClaimAssessment(a + [e] + b, p) == ClaimAssessment(a + b, p)
    {
      OutageInserted(a, e, b, p.rail);
      ClaimNotInserted(a, e, b, p);
    }
  }

  lemma MissingInserted(a: seq<Evidence>, e: Evidence, b: seq<Evidence>)
    ensures Missing(a + [e] + b) == Missing(a + b) + if e.available then 0 else 1
  {
    MissingJoined(a, b);
    MissingJoined(a + [e], b);
    MissingJoined(a, [e]);
    assert [e][1..] == [];
  }

  /** An answer that has nothing to say about the order changes neither the fold nor the gate, wherever it
      stands among the evidence. */
  lemma SilentAnswerChangesNothing(c: Case, a: seq<Evidence>, e: Evidence, b: seq<Evidence>, cfg: FoldConfig)
    requires cfg.Valid() && e.available && !Speaks(e, StateOf(c.obs))
    ensures AnsweredAlike(c, a + [e] + b, a + b, cfg)
  {
    SilentIsAlike(StateOf(c.obs), a, e, b);
    MissingInserted(a, e, b);
    AlikeAnswered(c, a + [e] + b, a + b, cfg);
  }

  /** So an outage on a rail that no failed payment of the stream is on leaves verdict, rules, siblings and
      vetoes as they were: a UPI outage says nothing about a netbanking failure. */
  lemma OutageElsewhereChangesNothing(c: Case, a: seq<Evidence>, e: Evidence, b: seq<Evidence>, rail: string,
                                      cfg: FoldConfig)
    requires cfg.Valid() && e.source == DowntimeSource && e.available && e.value.Fields? && e.value.rail == Some(rail)
    requires forall p :: p in StateOf(c.obs).payments && p.status == Some(Failed) ==>
                           p.rail.Some? && p.rail.value != rail
    ensures AnsweredAlike(c, a + [e] + b, a + b, cfg)
  {
    SilentAnswerChangesNothing(c, a, e, b, cfg);
  }

  // ------------------------------------------------------------------ unanswered probes

  function Answered(evidence: seq<Evidence>): (r: seq<Evidence>)
    ensures |r| + Missing(evidence) == |evidence|
    ensures forall e :: e in r <==> e in evidence && e.available
  {
    if evidence == [] then []
    else
      assert evidence == [evidence[0]] + evidence[1..];
      (if evidence[0].available then [evidence[0]] else []) + Answered(evidence[1..])
  }

  lemma {:induction false} AnsweredClaims(evidence: seq<Evidence>, p: Payment)
    ensures ClaimAssessment(Answered(evidence), p) == ClaimAssessment(evidence, p)
  {
    if evidence != [] {
      var rest := Answered(evidence[1..]);
      AnsweredClaims(evidence[1..], p);
      if evidence[0].available {
        assert Answered(evidence) == [evidence[0]] + rest && Answered(evidence)[1..] == rest;
      } else {
        assert Answered(evidence) == rest;
      }
    }
  }

  lemma AnsweredIsAlike(st: Order, evidence: seq<Evidence>)
    ensures Alike(st, evidence, Answered(evidence))
  {
    forall p | p in st.payments
      ensures ClaimAssessment(evidence, p) == ClaimAssessment(Answered(evidence), p)
    {
      AnsweredClaims(evidence, p);
    }
  }

  /** What is deducted for this many unanswered probes: 0.12 each, 0.30 at most. */
  function Penalty(unanswered: nat): nat { if unanswered == 0 then 0 else if unanswered == 1 then 1_200
                                           else if unanswered == 2 then 2_400 else 3_000 }

  /** A probe that gave nothing costs confidence and does nothing else: the result is that of the answers
      alone, less the penalty. */
  lemma UnansweredOnlyCosts(c: Case, evidence: seq<Evidence>, cfg: FoldConfig)
    requires cfg.Valid()
    ensures var full, r := FoldOf(c.obs, c.now, c.orderId, Answered(evidence), cfg),
                           FoldOf(c.obs, c.now, c.orderId, evidence, cfg);
            var penalty := Penalty(|evidence| - |Answered(evidence)|);
            r == full.(confidence := if full.confidence < penalty then 0 else full.confidence - penalty)
  {
    AnsweredCosts(StateOf(c.obs), c.obs == [], c.now, OrderIdOf(c.obs, c.orderId), evidence, cfg);
  }

  /** On the state alone. */
  lemma AnsweredCosts(st: Order, empty: bool, now: int, orderId: string, evidence: seq<Evidence>, cfg: FoldConfig)
    requires cfg.Valid()
    ensures var full, r := FoldState(st, empty, now, orderId, Answered(evidence), cfg),
                           FoldState(st, empty, now, orderId, evidence, cfg);
            var penalty := Penalty(|evidence| - |Answered(evidence)|);
            r == full.(confidence := if full.confidence < penalty then 0 else full.confidence - penalty)
  {
    AnsweredIsAlike(st, evidence);
    AlikeToSiblings(st, now, evidence, Answered(evidence), cfg);
    AlikeToRules(st, now, evidence, Answered(evidence), cfg);
    AllAnswered(Answered(evidence));
    ResultCosts(st, if empty then NOTHING_OBSERVED else Judge(st, now, evidence, cfg), now, orderId, evidence, cfg);
  }

  lemma ResultCosts(st: Order, ruling: Ruling, now: int, orderId: string, evidence: seq<Evidence>, cfg: FoldConfig)
    requires cfg.Valid() && Missing(Answered(evidence)) == 0
    requires AnyFlippable(st, now, cfg, evidence) == AnyFlippable(st, now, cfg, Answered(evidence))
    ensures var full, r := ResultOf(st, ruling, now, orderId, Answered(evidence), cfg),
                           ResultOf(st, ruling, now, orderId, evidence, cfg);
            var penalty := Penalty(|evidence| - |Answered(evidence)|);
            r == full.(confidence := if full.confidence < penalty then 0 else full.confidence - penalty)
  {
    Deducted(ruling.confidence, evidence);
    Deducted(ruling.confidence, Answered(evidence));
  }

  lemma Deducted(confidence: nat, evidence: seq<Evidence>)
    ensures var penalty := Penalty(Missing(evidence));
            Degrade(confidence, evidence) == if confidence < penalty then 0 else confidence - penalty
  {
  }

  lemma {:induction false} AllAnswered(evidence: seq<Evidence>)
    requires forall e :: e in evidence ==> e.available
    ensures Missing(evidence) == 0
  {
    if evidence != [] {
      AllAnswered(evidence[1..]);
    }
  }

  // ------------------------------------------------------------------------- outages

  /** An outage that covers the rail of a failure before any debit makes it a fact: no time can flip it. */
  lemma OutageSealsFailure(p: Payment, now: int, e: Evidence, evidence: seq<Evidence>, cfg: FoldConfig)
    requires cfg.Valid() && p.status == Some(Failed)
    requires p.errorStep == PaymentInitiation || p.errorStep == PaymentAuthentication
    requires e in evidence && ReportsOutage(e) && OnRail(e, p.rail)
    ensures !Flippable(p, now, cfg, evidence)
  {
  }

  /** And when that failure is the one judged, and neither customer nor business is to blame, it is R10. */
  lemma OutageConfirmsFailure(obs: seq<Observation>, now: int, orderId: string, e: Evidence, evidence: seq<Evidence>,
                              cfg: FoldConfig)
    requires cfg.Valid() && obs != [] && JudgeOrder(StateOf(obs), now, evidence, cfg).None?
    requires var p := LatestFailure(WithStatus(StateOf(obs).payments, Failed));
             && (p.errorStep == PaymentInitiation || p.errorStep == PaymentAuthentication)
             && p.errorSource != Business && (p.errorSource == Customer ==> p.errorReason.OtherReason?)
             && e in evidence && ReportsOutage(e) && OnRail(e, p.rail)
    ensures var r := FoldOf(obs, now, orderId, evidence, cfg);
            r.verdict == ConfirmedFailed && r.rulesFired == [R10_DowntimePreDebit] && r.recheckAt.None?
  {
  }

  /** A settlement report naming a payment of the order settles it. */
  lemma SettlementReportSettles(obs: seq<Observation>, now: int, orderId: string, p: Payment, e: Evidence,
                                evidence: seq<Evidence>, cfg: FoldConfig)
    requires cfg.Valid() && p in StateOf(obs).payments && e in evidence && ReportsSettled(e, p.id)
    ensures var r := FoldOf(obs, now, orderId, evidence, cfg);
            r.verdict == OrderSettled && r.rulesFired == [R1_SettlementReport]
  {
    NamedIsThere(StateOf(obs), p);
  }

  // ------------------------------------------------- one netbanking failure, two outages

  /** A netbanking payment the bank failed at authentication. */
  const NETBANKING := PlainEvent("e1", PaymentFailed, "pay_A", 1_000, Bank, PaymentAuthentication, OtherReason("bank"))
                        .(rail := Some("netbanking"))

  function OutageOf(rail: string): Evidence {
    Evidence(DowntimeSource, Fields(true, Some(rail), None, ""), true)
  }

  lemma NetbankingPending(p: Payment, now: int, cfg: FoldConfig)
    requires cfg.Valid() && p == Only(NETBANKING) && now <= TatDeadline(1_000, cfg.tatBankingDays, cfg.holidays)
    ensures JudgeFailure(p, now, [], cfg).verdict == PendingTat
  {
  }

  /** Inside the TAT window the order waits under a UPI outage and is CONFIRMED_FAILED under one of its own
      rail. */
  lemma OwnRailDecides(now: int, cfg: FoldConfig)
    requires cfg.Valid() && now <= TatDeadline(1_000, cfg.tatBankingDays, cfg.holidays)
    ensures FoldOf([NETBANKING], now, "order", [OutageOf("upi")], cfg).verdict == PendingTat
    ensures FoldOf([NETBANKING], now, "order", [OutageOf("netbanking")], cfg).verdict == ConfirmedFailed
  {
    var st, p := StateOf([NETBANKING]), Only(NETBANKING);
    OneEventState(NETBANKING);
    OneFailureJudged(st, p, now, cfg);
    NetbankingPending(p, now, cfg);
    FoldedPlainly([NETBANKING], now, "order", cfg);
    var none: seq<Evidence> := [];
    OutageElsewhereChangesNothing(Case([NETBANKING], now, "order"), none, OutageOf("upi"), none, "upi", cfg);
    assert none + [OutageOf("upi")] + none == [OutageOf("upi")] && none + none == none;
    OwnOutageOpen(st, p, now, cfg);
    OutageConfirmsFailure([NETBANKING], now, "order", OutageOf("netbanking"), [OutageOf("netbanking")], cfg);
  }

  lemma OwnOutageOpen(st: Order, p: Payment, now: int, cfg: FoldConfig)
    requires cfg.Valid() && st.payments == [p] && !st.settledInReport && !st.orderPaidSeen
    requires p.status == Some(Failed) && !p.refundProcessed && !p.refundFailed
    ensures JudgeOrder(st, now, [OutageOf("netbanking")], cfg).None?
    ensures LatestFailure(WithStatus(st.payments, Failed)) == p
  {
    StatusOfOne(p, Captured);
    StatusOfOne(p, Authorized);
    StatusOfOne(p, Failed);
    assert !SettledByProbe(st, [OutageOf("netbanking")]);
  }
}
