/** A plain recovery link, and when the gate has nothing against it: for the streams on which a link passes. */
module SmallLinks {
  import opened Common
  import opened Events
  import opened Verdicts
  import opened Fold
  import opened Gate
  import opened GateTheorems

  const UNKNOWN_CUSTOMER := CustomerContext(NoDnd, 0, {}, None, None, None, false)

  /** A registered template over SMS, proposed as surely as the floor asks. */
  function LinkOverSms(category: Category): RecoveryIntent {
    RecoveryIntent(SendRecoveryLink, Some(RcvRetry), [], Some(Sms), category, 9_000, None)
  }

  /** Nothing on the order speaks against a link. */
  predicate LinkDue(st: Order, truth: VerdictResult, obs: seq<Observation>, now: int, cfg: FoldConfig,
                    evidence: seq<Evidence>)
    requires cfg.Valid()
  {
    && !AnyFlippable(st, now, cfg, evidence)
    && st.amountDue != 0 && AmountPaid(st) == 0
    && truth.verdict == ConfirmedFailed && truth.confidence >= 9_000
    && forall o :: o in obs ==> o.sourceOrder == ""
  }

  lemma LinkOverSmsIsClear(intent: RecoveryIntent, category: Category, st: Order, obs: seq<Observation>, now: int)
    requires intent.(evidenceVersion := None) == LinkOverSms(category) && category != Promotional
    requires (forall o :: o in obs ==> o.sourceOrder == "") && (category == ServiceImplicit ==> !ConsentLapsed(st, now))
    ensures MessageClear(intent, st, obs, now, UNKNOWN_CUSTOMER)
  {
  }

  lemma LinkOverSmsUnvetoed(intent: RecoveryIntent, category: Category, st: Order, truth: VerdictResult,
                            obs: seq<Observation>, now: int, cfg: FoldConfig, evidence: seq<Evidence>)
    requires intent.(evidenceVersion := None) == LinkOverSms(category) && category != Promotional
    requires cfg.Valid() && LinkDue(st, truth, obs, now, cfg, evidence)
    requires category == ServiceImplicit ==> !ConsentLapsed(st, now)
    ensures VetoesOn(intent, st, truth, obs, now, UNKNOWN_CUSTOMER, false, cfg, evidence) == []
  {
    LinkOverSmsIsClear(intent, category, st, obs, now);
    LinkVetoedOn(intent, st, truth, obs, now, UNKNOWN_CUSTOMER, false, cfg, evidence);
  }

  /** So it is allowed as long as its key has not acted. */
  lemma LinkOverSmsAllowed(intent: RecoveryIntent, category: Category, obs: seq<Observation>, now: int,
                           seenKeys: set<Key>, cfg: FoldConfig, evidence: seq<Evidence>)
    requires intent.(evidenceVersion := None) == LinkOverSms(category) && category != Promotional
    requires cfg.Valid() && LinkDue(StateOf(obs), FoldOf(obs, now, "", evidence, cfg), obs, now, cfg, evidence)
    requires category == ServiceImplicit ==> !ConsentLapsed(StateOf(obs), now)
    requires IdempotencyKey(intent, obs) !in seenKeys
    ensures Allowed(intent, obs, now, UNKNOWN_CUSTOMER, seenKeys, cfg, evidence)
  {
    LinkOverSmsUnvetoed(intent, category, StateOf(obs), FoldOf(obs, now, "", evidence, cfg), obs, now, cfg, evidence);
  }
}
