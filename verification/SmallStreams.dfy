/** Streams of one and two events, worked out once: the states they fold to, for the lemmas that show
    where a property of the code fails. */
module SmallStreams {
  import opened Common
  import opened Events
  import opened Verdicts
  import opened Fold

  /** An event of a payment without order totals, references or a stamp. */
  function PlainEvent(eventId: string, t: EventType, id: string, at: int, source: ErrorSource, step: ErrorStep,
                      reason: ErrorReason): Observation {
    Observation(eventId, t, "order", Some(id), at, at, NoStatus, 49_900, 0, 0, Some("upi"), source, step, reason,
                None, None, "", "", "")
  }

  /** The payment one event makes. */
  function Only(o: Observation): Payment
    requires Truthy(o.paymentId)
  {
    Applied(NewPayment(o.paymentId.value), o)
  }

  /** An event about a payment that sets no order flag and no order total. */
  predicate AboutPayment(o: Observation) {
    && Truthy(o.paymentId) && o.amountDue == 0 && o.amountPaid == 0
    && o.eventType != OrderPaid && o.eventType != SettlementProcessed
  }

  lemma OneEventOrder(o: Observation)
    ensures CanonicalOrder([o]) == [o]
  {
    assert [o][1..] == [];
  }

  lemma TwoEventOrder(a: Observation, b: Observation)
    requires a.eventTime < b.eventTime
    ensures CanonicalOrder([a, b]) == [a, b]
  {
    assert [a, b][1..] == [b];
    OneEventOrder(b);
  }

  lemma OneEventReduced(o: Observation)
    requires AboutPayment(o)
    ensures Reduced([o]) == Order([Only(o)], 0, 0, false, false, None)
  {
    assert [o][..0] == [];
    assert IndexOf([], o.paymentId.value) == 0;
  }

  lemma TwoEventsReduced(a: Observation, b: Observation)
    requires AboutPayment(a) && AboutPayment(b) && a.paymentId != b.paymentId
    ensures Reduced([a, b]) == Order([Only(a), Only(b)], 0, 0, false, false, None)
  {
    OneEventReduced(a);
    assert [a, b][..1] == [a];
    var payments := [Only(a)];
    assert payments[1..] == [];
    assert IndexOf(payments, b.paymentId.value) == 1;
  }

  lemma TotalsOfOne(p: Payment)
    ensures LargestAmount([p]) == p.amount && FirstFailure([p]) == p.failedAt
  {
    assert [p][1..] == [];
  }

  lemma TotalsOfTwo(p: Payment, q: Payment)
    ensures LargestAmount([p, q]) == Max(p.amount, q.amount)
    ensures p.failedAt.Some? && (q.failedAt.Some? ==> p.failedAt.value < q.failedAt.value)
            ==> FirstFailure([p, q]) == p.failedAt
    ensures p.failedAt.None? ==> FirstFailure([p, q]) == q.failedAt
  {
    assert [p, q][1..] == [q];
    TotalsOfOne(q);
  }

  lemma OneEventState(o: Observation)
    requires AboutPayment(o)
    ensures StateOf([o]) == Order([Only(o)], Only(o).amount, 0, false, false, Only(o).failedAt)
  {
    OneEventOrder(o);
    OneEventReduced(o);
    TotalsOfOne(Only(o));
  }

  lemma TwoEventState(a: Observation, b: Observation)
    requires AboutPayment(a) && AboutPayment(b) && a.paymentId != b.paymentId && a.eventTime < b.eventTime
    ensures var st := StateOf([a, b]);
            && st.payments == [Only(a), Only(b)] && st.amountDue == Max(Only(a).amount, Only(b).amount)
            && st.amountPaidReported == 0 && !st.orderPaidSeen && !st.settledInReport
            && st.firstFailureAt == if Only(a).failedAt.Some? then Only(a).failedAt else Only(b).failedAt
  {
    TwoEventOrder(a, b);
    TwoEventsReduced(a, b);
    TotalsOfTwo(Only(a), Only(b));
  }

  lemma StatusOfOne(p: Payment, s: PaymentStatus)
    ensures WithStatus([p], s) == if p.status == Some(s) then [p] else []
  {
    assert [p][1..] == [];
  }

  lemma StatusOfTwo(p: Payment, q: Payment, s: PaymentStatus)
    ensures WithStatus([p, q], s)
            == (if p.status == Some(s) then [p] else []) + (if q.status == Some(s) then [q] else [])
  {
    assert [p, q][1..] == [q];
    StatusOfOne(q, s);
  }

  /** Without order facts, one failed payment is judged by the failure rules. */
  lemma OneFailureJudged(st: Order, p: Payment, now: int, cfg: FoldConfig)
    requires cfg.Valid() && st.payments == [p] && !st.settledInReport && !st.orderPaidSeen
    requires p.status == Some(Failed) && !p.refundProcessed && !p.refundFailed
    ensures Judge(st, now, [], cfg) == JudgeFailure(p, now, [], cfg)
    ensures LatestFailure(WithStatus(st.payments, Failed)) == p
  {
    StatusOfOne(p, Captured);
    StatusOfOne(p, Authorized);
    StatusOfOne(p, Failed);
    assert JudgeOrder(st, now, [], cfg).None?;
  }

  /** Of two failed payments the later failure is judged. */
  lemma TwoFailuresJudged(st: Order, p: Payment, q: Payment, now: int, cfg: FoldConfig)
    requires cfg.Valid() && st.payments == [p, q] && !st.settledInReport && !st.orderPaidSeen
    requires p.status == Some(Failed) && !p.refundProcessed && !p.refundFailed
    requires q.status == Some(Failed) && !q.refundProcessed && !q.refundFailed
    requires OrZero(p.failedAt) < OrZero(q.failedAt)
    ensures Judge(st, now, [], cfg) == JudgeFailure(q, now, [], cfg)
    ensures AmountPaid(st) == st.amountPaidReported
  {
    StatusOfTwo(p, q, Captured);
    StatusOfTwo(p, q, Authorized);
    StatusOfTwo(p, q, Failed);
    assert [p, q][1..] == [q];
    assert LatestFailure([p, q]) == q;
    assert JudgeOrder(st, now, [], cfg).None?;
  }

  /** Without evidence the fold's verdict is the ladder's ruling as it stands. */
  lemma FoldedPlainly(obs: seq<Observation>, now: int, orderId: string, cfg: FoldConfig)
    requires cfg.Valid() && obs != []
    ensures var v, r := FoldOf(obs, now, orderId, [], cfg), Judge(StateOf(obs), now, [], cfg);
            v.verdict == r.verdict && v.confidence == r.confidence && v.recheckAt == r.recheckAt
  {
    assert Missing([]) == 0;
  }
}
