/** What the reduction of core/fold.py keeps of a stream, said of the stream itself: which observation
    each field of a payment and of the order comes from. */
module PaymentTheorems {
  import opened Common
  import opened Events
  import opened Fold
  import opened FoldTheorems

  /** s[i] is about the payment. */
  predicate Own(s: seq<Observation>, id: string, i: int)
    requires 0 <= i < |s|
  {
    s[i].paymentId == Some(id)
  }

  /** The payment as one more observation leaves it. */
  function Grown(before: Option<Payment>, id: string, o: Observation): Option<Payment> {
    if o.paymentId == Some(id) then Some(Applied(if before.Some? then before.value else NewPayment(id), o)) else before
  }

  function Folded(s: seq<Observation>, id: string): Option<Payment> { Find(Reduced(s).payments, id) }

  lemma FoldedGrows(s: seq<Observation>, id: string)
    requires s != [] && id != ""
    ensures Folded(s, id) == Grown(Folded(s[..|s| - 1], id), id, s[|s| - 1])
  {
    var last := s[|s| - 1];
    if Truthy(last.paymentId) {
      FindAfterTouch(Reduced(s[..|s| - 1]).payments, last, id);
    }
  }

  /** A payment is on the order exactly when some observation names it. */
  lemma {:induction false} PaymentPerId(s: seq<Observation>, id: string)
    requires id != ""
    ensures Folded(s, id).Some? <==> exists i :: 0 <= i < |s| && Own(s, id, i)
    ensures Folded(s, id).Some? ==> Folded(s, id).value.id == id
  {
    if s != [] {
      var front := s[..|s| - 1];
      PaymentPerId(front, id);
      FoldedGrows(s, id);
      if i :| 0 <= i < |front| && Own(front, id, i) {
        assert Own(s, id, i);
      }
      if i :| 0 <= i < |s| && Own(s, id, i) {
        assert i < |front| ==> Own(front, id, i);
      }
      assert s[|s| - 1].paymentId == Some(id) ==> Own(s, id, |s| - 1);
    }
  }

  // --------------------------------------------------------------------- latest wins

  /** s[i] is the payment's last event of this type. */
  predicate LastOfType(s: seq<Observation>, id: string, i: int, t: EventType)
    requires 0 <= i < |s|
  {
    Own(s, id, i) && s[i].eventType == t && forall j :: i < j < |s| ==> !(Own(s, id, j) && s[j].eventType == t)
  }

  /** What a payment knows of its failure. */
  datatype FailureDetail = FailureDetail(at: Option<int>, source: ErrorSource, step: ErrorStep, reason: ErrorReason)

  function FailureIn(p: Payment): FailureDetail { FailureDetail(p.failedAt, p.errorSource, p.errorStep, p.errorReason) }

  function FailureBy(o: Observation): FailureDetail {
    FailureDetail(Some(o.eventTime), o.errorSource, o.errorStep, o.errorReason)
  }

  lemma FailureGrows(s: seq<Observation>, id: string)
    requires s != [] && id != ""
    ensures var before, after, last := Folded(s[..|s| - 1], id), Folded(s, id), s[|s| - 1];
            if last.paymentId != Some(id) then after == before
            else after.Some?
                 && FailureIn(after.value) == if last.eventType == PaymentFailed then FailureBy(last)
                                              else FailureIn(if before.Some? then before.value else NewPayment(id))
  {
    FoldedGrows(s, id);
  }

  /** A payment's failure is its latest `payment.failed`: the time and the error detail come from that
      event and from no other, though later events move the status on. */
  lemma {:induction false} FailureIsTheLatest(s: seq<Observation>, id: string, i: int)
    requires id != "" && 0 <= i < |s| && LastOfType(s, id, i, PaymentFailed)
    ensures var p := Folded(s, id); p.Some? && FailureIn(p.value) == FailureBy(s[i])
  {
    var front := s[..|s| - 1];
    FailureGrows(s, id);
    assert !(i < |s| - 1) || !(Own(s, id, |s| - 1) && s[|s| - 1].eventType == PaymentFailed);
    if i < |front| {
      assert forall j :: 0 <= j < |front| ==> front[j] == s[j] && (Own(front, id, j) <==> Own(s, id, j));
      FailureIsTheLatest(front, id, i);
    }
  }

  /** When the payment was last marked by an event of this type. */
  function MarkedAt(p: Payment, t: EventType): Option<int>
    requires t in {PaymentFailed, PaymentAuthorized, PaymentCaptured}
  {
    match t
    case PaymentFailed => p.failedAt
    case PaymentAuthorized => p.authorizedAt
    case PaymentCaptured => p.capturedAt
  }

  lemma MarkedOnce(p: Payment, o: Observation, t: EventType)
    requires t in {PaymentFailed, PaymentAuthorized, PaymentCaptured}
    ensures MarkedAt(Applied(p, o), t) == if o.eventType == t then Some(o.eventTime) else MarkedAt(p, t)
  {
  }

  lemma MarkedAtGrows(s: seq<Observation>, id: string, t: EventType)
    requires s != [] && id != "" && t in {PaymentFailed, PaymentAuthorized, PaymentCaptured}
    ensures var before, after, last := Folded(s[..|s| - 1], id), Folded(s, id), s[|s| - 1];
            if last.paymentId != Some(id) then after == before
            else after.Some?
                 && MarkedAt(after.value, t) == if last.eventType == t then Some(last.eventTime)
                                                else MarkedAt(if before.Some? then before.value else NewPayment(id), t)
  {
    FoldedGrows(s, id);
    var last := s[|s| - 1];
    if last.paymentId == Some(id) {
      var before := Folded(s[..|s| - 1], id);
      MarkedOnce(if before.Some? then before.value else NewPayment(id), last, t);
    }
  }

  /** The failure, authorisation and capture times are those of the payment's last such events. */
  lemma {:induction false} MarkedAtTheLatest(s: seq<Observation>, id: string, i: int, t: EventType)
    requires t in {PaymentFailed, PaymentAuthorized, PaymentCaptured}
    requires id != "" && 0 <= i < |s| && LastOfType(s, id, i, t)
    ensures Folded(s, id).Some? && MarkedAt(Folded(s, id).value, t) == Some(s[i].eventTime)
  {
    var front := s[..|s| - 1];
    MarkedAtGrows(s, id, t);
    assert !(i < |s| - 1) || !(Own(s, id, |s| - 1) && s[|s| - 1].eventType == t);
    if i < |front| {
      assert forall j :: 0 <= j < |front| ==> front[j] == s[j] && (Own(front, id, j) <==> Own(s, id, j));
      MarkedAtTheLatest(front, id, i, t);
    }
  }

  /** The status an event sets whatever came before. */
  function StatusSet(t: EventType): PaymentStatus
    requires StatusEvent(t)
  {
    match t
    case PaymentFailed => Failed
    case PaymentAuthorized => Authorized
    case PaymentCaptured => Captured
    case RefundProcessed => Refunded
  }

  /** A payment's status is what its last status event set: a late authorisation or capture overrides
      a failure, and a failure that happened later overrides a capture. */
  lemma {:induction false} StatusIsTheLatest(s: seq<Observation>, id: string, i: int)
    requires id != "" && 0 <= i < |s| && Own(s, id, i) && StatusEvent(s[i].eventType)
    requires forall j :: i < j < |s| ==> !(Own(s, id, j) && StatusEvent(s[j].eventType))
    ensures Folded(s, id).Some? && Folded(s, id).value.status == Some(StatusSet(s[i].eventType))
  {
    var front := s[..|s| - 1];
    FoldedGrows(s, id);
    if i < |front| {
      assert forall j :: 0 <= j < |front| ==> front[j] == s[j] && (Own(front, id, j) <==> Own(s, id, j));
      StatusIsTheLatest(front, id, i);
      assert !(Own(s, id, |s| - 1) && StatusEvent(s[|s| - 1].eventType));
    }
  }

  /** The observation may set a status that is still unknown. */
  predicate Reports(o: Observation) { !StatusEvent(o.eventType) && o.eventType != RefundFailed && o.status.Reported? }

  function StatusIn(p: Option<Payment>): Option<PaymentStatus> { if p.Some? then p.value.status else None }

  /** An observation that is no status event reports into a status that is still unknown. */
  lemma StatusGrows(s: seq<Observation>, id: string)
    requires s != [] && id != "" && !(Own(s, id, |s| - 1) && StatusEvent(s[|s| - 1].eventType))
    ensures var before, o := StatusIn(Folded(s[..|s| - 1], id)), s[|s| - 1];
            StatusIn(Folded(s, id))
            == if before.None? && Own(s, id, |s| - 1) && Reports(o) then Some(o.status.status) else before
  {
    FoldedGrows(s, id);
  }

  /** Of the payment's observations, none of which is a status event, the i-th is the first that reports. */
  predicate ReportsFirst(s: seq<Observation>, id: string, i: int) {
    && 0 <= i < |s| && Own(s, id, i) && Reports(s[i])
    && (forall j :: 0 <= j < |s| ==> !(Own(s, id, j) && StatusEvent(s[j].eventType)))
    && (forall j :: 0 <= j < i ==> !(Own(s, id, j) && Reports(s[j])))
  }

  lemma FrontReportsFirst(s: seq<Observation>, id: string, i: int)
    requires ReportsFirst(s, id, i) && i < |s| - 1
    ensures ReportsFirst(s[..|s| - 1], id, i)
  {
    var front := s[..|s| - 1];
    assert forall j :: 0 <= j < |front| ==> front[j] == s[j] && (Own(front, id, j) <==> Own(s, id, j));
  }

  lemma NothingBefore(s: seq<Observation>, id: string)
    requires s != [] && id != "" && ReportsFirst(s, id, |s| - 1)
    ensures StatusIn(Folded(s[..|s| - 1], id)).None?
  {
    var front := s[..|s| - 1];
    assert forall j :: 0 <= j < |front| ==> front[j] == s[j] && (Own(front, id, j) <==> Own(s, id, j));
    NoStatusYet(front, id);
  }

  /** Without a status event, the first status an entity reported stands. */
  lemma {:induction false} StatusIsTheFirstReported(s: seq<Observation>, id: string, i: int)
    requires id != "" && ReportsFirst(s, id, i)
    ensures Folded(s, id).Some? && Folded(s, id).value.status == Some(s[i].status.status)
  {
    StatusGrows(s, id);
    if i < |s| - 1 {
      FrontReportsFirst(s, id, i);
      StatusIsTheFirstReported(s[..|s| - 1], id, i);
    } else {
      NothingBefore(s, id);
    }
  }

  lemma {:induction false} NoStatusYet(s: seq<Observation>, id: string)
    requires id != "" && forall j :: 0 <= j < |s| ==> !(Own(s, id, j) && (StatusEvent(s[j].eventType) || Reports(s[j])))
    ensures StatusIn(Folded(s, id)).None?
  {
    if s != [] {
      var front := s[..|s| - 1];
      assert !(Own(s, id, |s| - 1) && (StatusEvent(s[|s| - 1].eventType) || Reports(s[|s| - 1])));
      StatusGrows(s, id);
      assert forall j :: 0 <= j < |front| ==> front[j] == s[j] && (Own(front, id, j) <==> Own(s, id, j));
      NoStatusYet(front, id);
    }
  }

  /** The stream holds an event of this type about the payment. */
  ghost predicate Seen(s: seq<Observation>, id: string, t: EventType) {
    exists i :: 0 <= i < |s| && Own(s, id, i) && s[i].eventType == t
  }

  lemma SeenGrows(s: seq<Observation>, id: string, t: EventType)
    requires s != []
    ensures Seen(s, id, t)
            <==> Seen(s[..|s| - 1], id, t) || (s[|s| - 1].paymentId == Some(id) && s[|s| - 1].eventType == t)
  {
    var front := s[..|s| - 1];
    if i :| 0 <= i < |front| && Own(front, id, i) && front[i].eventType == t {
      assert Own(s, id, i) && s[i].eventType == t;
    }
    if i :| 0 <= i < |s| && Own(s, id, i) && s[i].eventType == t {
      assert i < |front| ==> Own(front, id, i) && front[i].eventType == t;
    }
    assert s[|s| - 1].paymentId == Some(id) ==> Own(s, id, |s| - 1);
  }

  lemma RefundFlagsOf(p: Payment, o: Observation)
    ensures Applied(p, o).refundProcessed == (p.refundProcessed || o.eventType == RefundProcessed)
    ensures Applied(p, o).refundFailed == (p.refundFailed || o.eventType == RefundFailed)
  {
  }

  /** Refund flags never clear: they say whether the event was ever seen. */
  lemma {:induction false} RefundsAreRemembered(s: seq<Observation>, id: string)
    requires id != ""
    ensures Folded(s, id).Some? && Folded(s, id).value.refundProcessed <==> Seen(s, id, RefundProcessed)
    ensures Folded(s, id).Some? && Folded(s, id).value.refundFailed <==> Seen(s, id, RefundFailed)
  {
    if s != [] {
      var before, last := Folded(s[..|s| - 1], id), s[|s| - 1];
      RefundsAreRemembered(s[..|s| - 1], id);
      FoldedGrows(s, id);
      SeenGrows(s, id, RefundProcessed);
      SeenGrows(s, id, RefundFailed);
      RefundFlagsOf(if before.Some? then before.value else NewPayment(id), last);
    }
  }

  // ---------------------------------------------------------------------- first stays

  /** The identifying texts an event may fill in. */
  datatype Field = Rail | Rrn | Upi {
    function Of(o: Observation): Option<string> {
      match this case Rail => o.rail case Rrn => o.rrn case Upi => o.upiTransactionId
    }

    function On(p: Payment): Option<string> {
      match this case Rail => p.rail case Rrn => p.rrn case Upi => p.upiTransactionId
    }
  }

  lemma FieldOf(p: Payment, o: Observation, f: Field)
    ensures f.On(Applied(p, o)) == Or(f.On(p), f.Of(o))
  {
    assert f.On(Merged(p, o)) == Or(f.On(p), f.Of(o));
  }

  lemma FieldGrows(s: seq<Observation>, id: string, f: Field)
    requires s != [] && id != ""
    ensures var before, after, last := Folded(s[..|s| - 1], id), Folded(s, id), s[|s| - 1];
            if last.paymentId != Some(id) then after == before
            else
              && after.Some?
              && f.On(after.value) == if before.Some? then Or(f.On(before.value), f.Of(last)) else Or(None, f.Of(last))
  {
    var before := Folded(s[..|s| - 1], id);
    FoldedGrows(s, id);
    FieldOf(if before.Some? then before.value else NewPayment(id), s[|s| - 1], f);
  }

  /** The rail and the references of a payment are the first that any of its observations carried:
      a later event cannot rewrite what a customer's bank statement is matched with. */
  lemma {:induction false} FirstReferenceStays(s: seq<Observation>, id: string, i: int, f: Field)
    requires id != "" && 0 <= i < |s| && Own(s, id, i) && Truthy(f.Of(s[i]))
    requires forall j :: 0 <= j < i ==> !(Own(s, id, j) && Truthy(f.Of(s[j])))
    ensures Folded(s, id).Some? && f.On(Folded(s, id).value) == f.Of(s[i])
  {
    var front := s[..|s| - 1];
    FieldGrows(s, id, f);
    assert forall j :: 0 <= j < |front| ==> front[j] == s[j] && (Own(front, id, j) <==> Own(s, id, j));
    if i < |front| {
      FirstReferenceStays(front, id, i, f);
    } else {
      NoReferenceYet(front, id, f);
    }
  }

  lemma {:induction false} NoReferenceYet(s: seq<Observation>, id: string, f: Field)
    requires id != "" && forall j :: 0 <= j < |s| ==> !(Own(s, id, j) && Truthy(f.Of(s[j])))
    ensures Folded(s, id).Some? ==> !Truthy(f.On(Folded(s, id).value))
  {
    if s != [] {
      var front := s[..|s| - 1];
      assert forall j :: 0 <= j < |front| ==> front[j] == s[j] && (Own(front, id, j) <==> Own(s, id, j));
      NoReferenceYet(front, id, f);
      FieldGrows(s, id, f);
      assert !(Own(s, id, |s| - 1) && Truthy(f.Of(s[|s| - 1])));
    }
  }

  lemma AmountGrows(s: seq<Observation>, id: string)
    requires s != [] && id != ""
    ensures var before, after, last := Folded(s[..|s| - 1], id), Folded(s, id), s[|s| - 1];
            if last.paymentId != Some(id) then after == before
            else after.Some?
                 && after.value.amount
                    == if before.Some? && before.value.amount != 0 then before.value.amount else last.amount
  {
    FoldedGrows(s, id);
  }

  /** So is the amount: the first that is not zero. */
  lemma {:induction false} FirstAmountStays(s: seq<Observation>, id: string, i: int)
    requires id != "" && 0 <= i < |s| && Own(s, id, i) && s[i].amount != 0
    requires forall j :: 0 <= j < i ==> !(Own(s, id, j) && s[j].amount != 0)
    ensures Folded(s, id).Some? && Folded(s, id).value.amount == s[i].amount
  {
    var front := s[..|s| - 1];
    AmountGrows(s, id);
    assert forall j :: 0 <= j < |front| ==> front[j] == s[j] && (Own(front, id, j) <==> Own(s, id, j));
    if i < |front| {
      FirstAmountStays(front, id, i);
    } else {
      NoAmountYet(front, id);
    }
  }

  lemma {:induction false} NoAmountYet(s: seq<Observation>, id: string)
    requires id != "" && forall j :: 0 <= j < |s| ==> !(Own(s, id, j) && s[j].amount != 0)
    ensures Folded(s, id).Some? ==> Folded(s, id).value.amount == 0
  {
    if s != [] {
      var front := s[..|s| - 1];
      assert forall j :: 0 <= j < |front| ==> front[j] == s[j] && (Own(front, id, j) <==> Own(s, id, j));
      NoAmountYet(front, id);
      AmountGrows(s, id);
      assert !(Own(s, id, |s| - 1) && s[|s| - 1].amount != 0);
    }
  }

  // -------------------------------------------------------------------- order totals

  /** The order's flags say whether an event was ever seen, and its totals are the greatest reported. */
  lemma {:induction false} TotalsAreTheGreatest(s: seq<Observation>)
    ensures var st := Reduced(s);
            && (st.orderPaidSeen <==> exists o :: o in s && o.eventType == OrderPaid)
            && (st.settledInReport <==> exists o :: o in s && o.eventType == SettlementProcessed)
            && (forall o :: o in s ==> o.amountDue <= st.amountDue && o.amountPaid <= st.amountPaidReported)
            && (st.amountDue != 0 ==> exists o :: o in s && o.amountDue == st.amountDue)
            && (st.amountPaidReported != 0 ==> exists o :: o in s && o.amountPaid == st.amountPaidReported)
  {
    if s != [] {
      var front, last := s[..|s| - 1], s[|s| - 1];
      TotalsAreTheGreatest(front);
      assert s == front + [last];
      assert forall o :: o in s <==> o in front || o == last;
    }
  }

  lemma {:induction false} LargestIsGreatest(payments: seq<Payment>)
    ensures forall p :: p in payments ==> p.amount <= LargestAmount(payments)
    ensures LargestAmount(payments) > 0 ==> exists p :: p in payments && p.amount == LargestAmount(payments)
  {
    if payments != [] {
      LargestIsGreatest(payments[1..]);
      assert payments == [payments[0]] + payments[1..];
    }
  }

  /** What the order owes: the greatest amount due that any event reported, or when none did the greatest amount of
      its attempts. */
  lemma AmountDueIs(obs: seq<Observation>)
    ensures var st := StateOf(obs);
            && (forall o :: o in obs ==> o.amountDue <= st.amountDue)
            && ((exists o :: o in obs && o.amountDue > 0) ==> exists o :: o in obs && o.amountDue == st.amountDue)
            && ((forall o :: o in obs ==> o.amountDue == 0) ==>
                  && (forall p :: p in st.payments ==> p.amount <= st.amountDue)
                  && (st.amountDue > 0 ==> exists p :: p in st.payments && p.amount == st.amountDue))
  {
    CanonicalOrderElements(obs);
    TotalsAreTheGreatest(CanonicalOrder(obs));
    LargestIsGreatest(Reduced(CanonicalOrder(obs)).payments);
  }

  // ---------------------------------------------------------------------- failure times

  /** Every failure time in the state is the time of some `payment.failed` of the stream. */
  lemma {:induction false} FailureFromEvent(s: seq<Observation>)
    ensures forall p :: p in Reduced(s).payments && p.failedAt.Some? ==>
              exists o :: o in s && o.eventType == PaymentFailed && o.eventTime == p.failedAt.value
  {
    if s != [] {
      var front, last := s[..|s| - 1], s[|s| - 1];
      assert s == front + [last];
      FailureFromEvent(front);
      forall p | p in Reduced(s).payments && p.failedAt.Some?
        ensures exists o :: o in s && o.eventType == PaymentFailed && o.eventTime == p.failedAt.value
      {
        if exists q :: q in Reduced(front).payments && q.failedAt == p.failedAt {
          var q :| q in Reduced(front).payments && q.failedAt == p.failedAt;
          var o :| o in front && o.eventType == PaymentFailed && o.eventTime == q.failedAt.value;
          assert o in s;
        } else {
          NewFailureTime(Reduced(front), last, p);
          assert last in s;
        }
      }
    }
  }

  /** A failure time that no payment had before is the time of the failure just observed. */
  lemma NewFailureTime(st: Order, o: Observation, p: Payment)
    requires p in Step(st, o).payments && p.failedAt.Some?
    requires !exists q :: q in st.payments && q.failedAt == p.failedAt
    ensures o.eventType == PaymentFailed && o.eventTime == p.failedAt.value
  {
    if Truthy(o.paymentId) {
      var i := IndexOf(st.payments, o.paymentId.value);
      if i < |st.payments| {
        assert st.payments[i] in st.payments;
      }
    }
  }
}
