/** Which streams stay settled whatever is stored after them. */
module SettledTheorems {
  import opened Common
  import opened Events
  import opened Verdicts
  import opened Fold
  import opened PaymentTheorems

  // ------------------------------------------------------------------- a later event

  function TimeAfter(obs: seq<Observation>): (t: int)
    ensures forall o :: o in obs ==> o.eventTime < t
  {
    if obs == [] then 0
    else
      var t := TimeAfter(obs[1..]);
      assert obs == [obs[0]] + obs[1..];
      if t <= obs[0].eventTime then obs[0].eventTime + 1 else t
  }

  lemma {:induction false} InsertBeforeLast(p: Observation, s: seq<Observation>, o: Observation)
    requires p.eventTime < o.eventTime
    ensures Insert(p, s + [o]) == Insert(p, s) + [o]
  {
    if s != [] && !KeyLe(p, s[0]) {
      InsertBeforeLast(p, s[1..], o);
      assert (s + [o])[1..] == s[1..] + [o];
    }
  }

  /** An event later than all others comes last in the canonical order. */
  lemma {:induction false} LatestComesLast(obs: seq<Observation>, o: Observation)
    requires forall p :: p in obs ==> p.eventTime < o.eventTime
    ensures CanonicalOrder(obs + [o]) == CanonicalOrder(obs) + [o]
  {
    if obs == [] {
      assert [o][1..] == [] && [] + [o] == [o];
    } else {
      LatestComesLast(obs[1..], o);
      assert (obs + [o])[1..] == obs[1..] + [o];
      InsertBeforeLast(obs[0], CanonicalOrder(obs[1..]), o);
    }
  }

  // ------------------------------------------------------------------ the exact condition

  /** The events that settle an order for good. */
  predicate SettlesForGood(o: Observation) { o.eventType == SettlementProcessed || o.eventType == OrderPaid }

  /** The order is settled however the stream goes on, on any evidence and at any time. */
  ghost predicate StaysSettled(obs: seq<Observation>, cfg: FoldConfig)
    requires cfg.Valid()
  {
    forall more, now, orderId, evidence :: FoldOf(obs + more, now, orderId, evidence, cfg).verdict == OrderSettled
  }

  lemma FlagsSettle(st: Order, now: int, evidence: seq<Evidence>, cfg: FoldConfig)
    requires cfg.Valid() && (st.settledInReport || st.orderPaidSeen)
    ensures Judge(st, now, evidence, cfg).verdict == OrderSettled
  {
  }

  lemma StoredSettles(obs: seq<Observation>, o: Observation, now: int, orderId: string, evidence: seq<Evidence>,
                      cfg: FoldConfig)
    requires cfg.Valid() && o in obs && SettlesForGood(o)
    ensures FoldOf(obs, now, orderId, evidence, cfg).verdict == OrderSettled
  {
    CanonicalOrderElements(obs);
    TotalsAreTheGreatest(CanonicalOrder(obs));
    FlagsSettle(StateOf(obs), now, evidence, cfg);
  }

  /** An event that raises the amount due above what has been paid. */
  function LargerDue(obs: seq<Observation>): Observation {
    Observation("larger", OtherEvent("order.updated"), "order", None, TimeAfter(obs), TimeAfter(obs), NoStatus,
                0, 0, AmountPaid(StateOf(obs)) + 1, None, UnknownSource, OtherStep, OtherReason(""), None, None,
                "", "", "")
  }

  lemma LargerDueState(obs: seq<Observation>)
    ensures var st, larger := StateOf(obs), StateOf(obs + [LargerDue(obs)]);
            && larger.settledInReport == st.settledInReport && larger.orderPaidSeen == st.orderPaidSeen
            && AmountPaid(larger) == AmountPaid(st) && larger.amountDue > AmountPaid(st)
  {
    LatestComesLast(obs, LargerDue(obs));
    OneMoreStep(CanonicalOrder(obs), LargerDue(obs));
    LargerDueStep(Reduced(CanonicalOrder(obs)), LargerDue(obs));
  }

  lemma OneMoreStep(s: seq<Observation>, o: Observation)
    ensures Reduced(s + [o]) == Step(Reduced(s), o)
  {
    assert (s + [o])[..|s|] == s;
  }

  lemma LargerDueStep(st: Order, o: Observation)
    requires o.paymentId.None? && o.amountPaid == 0 && o.eventType.OtherEvent? && o.amountDue == AmountPaid(st) + 1
    ensures var larger := Finished(Step(st, o));
            && larger.settledInReport == st.settledInReport && larger.orderPaidSeen == st.orderPaidSeen
            && AmountPaid(larger) == AmountPaid(st) && larger.amountDue > AmountPaid(st)
  {
  }

  lemma UnpaidIsOpen(st: Order, now: int, cfg: FoldConfig)
    requires cfg.Valid() && !st.settledInReport && !st.orderPaidSeen && AmountPaid(st) < st.amountDue
    ensures Judge(st, now, [], cfg).verdict != OrderSettled
  {
    assert !SettledByProbe(st, []);
  }

  /** Exactly which streams stay settled: those with a `settlement.processed` or an `order.paid`. A capture
      alone can be outgrown by the amount due, and a settlement probe need not answer again. */
  lemma StaysSettledIff(obs: seq<Observation>, cfg: FoldConfig)
    requires cfg.Valid()
    ensures StaysSettled(obs, cfg) <==> exists o :: o in obs && SettlesForGood(o)
  {
    if o :| o in obs && SettlesForGood(o) {
      forall more, now, orderId, evidence
        ensures FoldOf(obs + more, now, orderId, evidence, cfg).verdict == OrderSettled
      {
        StoredSettles(obs + more, o, now, orderId, evidence, cfg);
      }
    } else {
      CanonicalOrderElements(obs);
      TotalsAreTheGreatest(CanonicalOrder(obs));
      LargerDueState(obs);
      UnpaidIsOpen(StateOf(obs + [LargerDue(obs)]), 0, cfg);
      assert FoldOf(obs + [LargerDue(obs)], 0, "", [], cfg).verdict != OrderSettled;
    }
  }
}
