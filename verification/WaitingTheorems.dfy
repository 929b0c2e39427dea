/** Waiting never licenses a recovery link on exactly the configurations with a settlement horizon of
    three banking days or more. */
module WaitingTheorems {
  import opened Common
  import opened Banking
  import opened Events
  import opened Verdicts
  import opened Fold
  import opened Gate
  import opened GateTheorems
  import opened SmallStreams
  import opened SmallLinks

  // ------------------------------------------------------------ a week without a holiday

  lemma {:induction false} BoundAbove(holidays: set<int>) returns (m: nat)
    ensures forall h :: h in holidays ==> h <= m
  {
    m := 0;
    if h :| h in holidays {
      var rest := BoundAbove(holidays - {h});
      m := if rest < h then h else rest;
      forall k | k in holidays ensures k <= m {
        assert k == h || k in holidays - {h};
      }
    }
  }

  /** A Monday past the last holiday. */
  lemma MondayAfter(holidays: set<int>) returns (d: nat)
    ensures d > 0 && Weekday(d) == 0 && forall h :: h in holidays ==> h < d
  {
    var m := BoundAbove(holidays);
    d := 7 * m + 4;
    assert (d + 3) % 7 == 0;
  }

  /** From a Monday without holidays ahead, up to two banking days are as many dates. */
  lemma QuietWeek(d: int, n: nat, holidays: set<int>)
    requires Weekday(d) == 0 && n <= 2 && forall h :: h in holidays ==> h < d
    ensures Advance(d, n, holidays) == Some(d + n)
  {
    WeekdayShift(d, 1);
    WeekdayShift(d, 2);
    assert IsBankingDay(d + 1, holidays) && IsBankingDay(d + 2, holidays);
    assert NextBankingDay(d, holidays) == Some(d + 1) && NextBankingDay(d + 1, holidays) == Some(d + 2);
    assert Advance(d, 0, holidays) == Some(d);
    assert Advance(d, 1, holidays) == Some(d + 1);
    assert n == 2 ==> Advance(d, n - 1, holidays) == Some(d + 1);
  }

  // ------------------------------------------------------------------------- the witness

  /** Ten in the morning, and the midnight on which the third date after begins. */
  function Morning(d: int): int { d * DAY + 10 * 3_600 - IST_OFFSET }

  function ThirdMidnight(d: int): int { (d + 3) * DAY - IST_OFFSET }

  /** The response to a payment is lost, and an hour later the customer cancels a second attempt. */
  function LostResponse(d: int): Observation {
    PlainEvent("e1", PaymentFailed, "pay_A", Morning(d), Network, OtherStep, OtherReason("timeout"))
  }

  function CancelledRetry(d: int): Observation {
    PlainEvent("e2", PaymentFailed, "pay_B", Morning(d) + 3_600, Customer, OtherStep, PaymentCancelled)
  }

  /** On the third midnight a horizon of two days is over and the consent window is still open. */
  lemma HorizonOver(d: int, cfg: FoldConfig)
    requires cfg.Valid() && cfg.settleHorizonDays <= 2 && Weekday(d) == 0
    requires forall h :: h in cfg.holidays ==> h < d
    ensures TatDeadline(Morning(d), cfg.settleHorizonDays, cfg.holidays) < ThirdMidnight(d)
    ensures ThirdMidnight(d) - Morning(d) < SERVICE_IMPLICIT_WINDOW
  {
    assert IstDate(Morning(d)) == d;
    QuietWeek(d, cfg.settleHorizonDays, cfg.holidays);
  }

  lemma NeitherCanFlip(st: Order, d: int, cfg: FoldConfig)
    requires cfg.Valid() && cfg.settleHorizonDays <= 2 && Weekday(d) == 0
    requires forall h :: h in cfg.holidays ==> h < d
    requires st.payments == [Only(LostResponse(d)), Only(CancelledRetry(d))]
    ensures !AnyFlippable(st, ThirdMidnight(d), cfg, [])
  {
    HorizonOver(d, cfg);
  }

  /** The order's own state and verdict on the third midnight. */
  lemma CancelledRetryDecides(st: Order, d: int, cfg: FoldConfig)
    requires cfg.Valid() && st.payments == [Only(LostResponse(d)), Only(CancelledRetry(d))] && d > 0
    requires !st.settledInReport && !st.orderPaidSeen && st.amountPaidReported == 0
    ensures Judge(st, ThirdMidnight(d), [], cfg) == Ruling(ConfirmedFailed, 9_500, [R9_CustomerTerminal], None)
    ensures AmountPaid(st) == 0
  {
    TwoFailuresJudged(st, Only(LostResponse(d)), Only(CancelledRetry(d)), ThirdMidnight(d), cfg);
  }

  /** Every attempt's fate is sealed. */
  ghost predicate AllSealed(obs: seq<Observation>, evidence: seq<Evidence>) {
    forall p :: p in StateOf(obs).payments ==> FateSealed(p, evidence)
  }

  /** A service-implicit link passes the gate on a stream of positive times. */
  predicate LinkPasses(intent: RecoveryIntent, obs: seq<Observation>, now: int, customer: CustomerContext,
                       seenKeys: set<Key>, cfg: FoldConfig, evidence: seq<Evidence>)
    requires cfg.Valid()
  {
    && intent.action == SendRecoveryLink && intent.category == ServiceImplicit
    && (forall o :: o in obs ==> o.eventTime > 0)
    && Allowed(intent, obs, now, customer, seenKeys, cfg, evidence)
  }

  lemma UnvetoedPasses(intent: RecoveryIntent, obs: seq<Observation>, now: int, customer: CustomerContext,
                       seenKeys: set<Key>, cfg: FoldConfig, evidence: seq<Evidence>)
    requires cfg.Valid() && intent.action == SendRecoveryLink && intent.category == ServiceImplicit
    requires forall o :: o in obs ==> o.eventTime > 0
    requires Vetoes(intent, obs, now, customer, seenKeys, cfg, evidence) == []
    ensures LinkPasses(intent, obs, now, customer, seenKeys, cfg, evidence)
  {
  }

  /** What the fold and the gate derive of the two events on the third midnight. */
  lemma WaitedState(d: nat, cfg: FoldConfig) returns (obs: seq<Observation>)
    requires cfg.Valid() && cfg.settleHorizonDays <= 2 && d > 0 && Weekday(d) == 0
    requires forall h :: h in cfg.holidays ==> h < d
    ensures obs != [] && forall o :: o in obs ==> o.eventTime > 0 && o.sourceOrder == ""
    ensures !AllSealed(obs, [])
    ensures var st := StateOf(obs);
            && !AnyFlippable(st, ThirdMidnight(d), cfg, []) && st.firstFailureAt == Some(Morning(d))
            && st.amountDue != 0 && AmountPaid(st) == 0
            && Judge(st, ThirdMidnight(d), [], cfg) == Ruling(ConfirmedFailed, 9_500, [R9_CustomerTerminal], None)
  {
    var a, b := LostResponse(d), CancelledRetry(d);
    obs := [a, b];
    TwoEventState(a, b);
    NeitherCanFlip(StateOf(obs), d, cfg);
    CancelledRetryDecides(StateOf(obs), d, cfg);
    assert Only(a) in StateOf(obs).payments && !FateSealed(Only(a), []);
  }

  lemma RetryWitness(cfg: FoldConfig) returns (intent: RecoveryIntent, obs: seq<Observation>, now: int)
    requires cfg.Valid() && cfg.settleHorizonDays <= 2
    ensures intent == LinkOverSms(ServiceImplicit) && !AllSealed(obs, []) && forall o :: o in obs ==> o.eventTime > 0
    ensures Vetoes(intent, obs, now, UNKNOWN_CUSTOMER, {}, cfg, []) == []
  {
    var d := MondayAfter(cfg.holidays);
    obs := WaitedState(d, cfg);
    intent, now := LinkOverSms(ServiceImplicit), ThirdMidnight(d);
    HorizonOver(d, cfg);
    FoldedPlainly(obs, now, "", cfg);
    LinkOverSmsUnvetoed(intent, ServiceImplicit, StateOf(obs), FoldOf(obs, now, "", [], cfg), obs, now, cfg, []);
  }

  /** On a horizon of at most two days, whatever the calendar and the TAT window, an order earns a link
      by waiting: nothing ever explained its first attempt. */
  lemma ShortHorizonLicensesWaiting(cfg: FoldConfig) returns (obs: seq<Observation>, now: int)
    requires cfg.Valid() && cfg.settleHorizonDays <= 2
    ensures LinkPasses(LinkOverSms(ServiceImplicit), obs, now, UNKNOWN_CUSTOMER, {}, cfg, []) && !AllSealed(obs, [])
  {
    var intent;
    intent, obs, now := RetryWitness(cfg);
    UnvetoedPasses(intent, obs, now, UNKNOWN_CUSTOMER, {}, cfg, []);
  }

  /** No implicit-consent link is ever allowed while some attempt's fate is open. */
  ghost predicate NeverLicensedByWaiting(cfg: FoldConfig)
    requires cfg.Valid()
  {
    forall intent, obs, now, customer, seenKeys, evidence ::
      LinkPasses(intent, obs, now, customer, seenKeys, cfg, evidence) ==> AllSealed(obs, evidence)
  }

  /** Exactly when: on every configuration, the horizon decides. */
  lemma NeverLicensedIff(cfg: FoldConfig)
    requires cfg.Valid()
    ensures NeverLicensedByWaiting(cfg) <==> cfg.settleHorizonDays >= 3
  {
    if cfg.settleHorizonDays >= 3 {
      forall intent, obs, now, customer, seenKeys, evidence
        | LinkPasses(intent, obs, now, customer, seenKeys, cfg, evidence)
        ensures AllSealed(obs, evidence)
      {
        NoLinkLicensedByWaiting(intent, obs, now, customer, seenKeys, cfg, evidence);
      }
    } else {
      var obs, now := ShortHorizonLicensesWaiting(cfg);
    }
  }
}
