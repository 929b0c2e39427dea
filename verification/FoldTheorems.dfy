/** What the fold guarantees: it reads the set of events and nothing else about their delivery,
    a capture always settles, time and claims move a verdict one way only. */
module FoldTheorems {
  import opened Common
  import opened Events
  import opened Verdicts
  import opened Claims
  import opened Fold

  // ------------------------------------------------ payments seen through their ids

  function Find(payments: seq<Payment>, id: string): Option<Payment> {
    var i := IndexOf(payments, id);
    if i < |payments| then Some(payments[i]) else None
  }

  lemma IndexOfUnique(payments: seq<Payment>, id: string, i: nat)
    requires i <= |payments| && (i < |payments| ==> payments[i].id == id)
    requires forall k :: 0 <= k < i ==> payments[k].id != id
    ensures IndexOf(payments, id) == i
  {
  }

  /** An observation changes its own payment and no other. */
  lemma FindAfterTouch(payments: seq<Payment>, o: Observation, id: string)
    requires Truthy(o.paymentId)
    ensures Find(Touched(payments, o), id) ==
            if id != o.paymentId.value then Find(payments, id)
            else Some(Applied(if Find(payments, id).Some? then Find(payments, id).value else NewPayment(id), o))
  {
    var touched, own, i := Touched(payments, o), IndexOf(payments, o.paymentId.value), IndexOf(payments, id);
    if id != o.paymentId.value && i == |payments| {
      IndexOfUnique(touched, id, |touched|);
    } else {
      IndexOfUnique(touched, id, i);
    }
  }

  lemma MergedIdempotent(p: Payment, o: Observation)
    ensures Merged(Merged(p, o), o) == Merged(p, o)
  {
  }

  lemma MarkedIdempotent(p: Payment, o: Observation)
    ensures Marked(Marked(p, o), o) == Marked(p, o)
  {
  }

  lemma MergedMarked(p: Payment, o: Observation)
    ensures Merged(Marked(p, o), o) == Marked(Merged(p, o), o)
  {
    match o.eventType
    case PaymentFailed =>
    case PaymentAuthorized =>
    case PaymentCaptured =>
    case RefundProcessed =>
    case RefundFailed =>
    case _ =>
  }

  lemma AppliedIdempotent(p: Payment, o: Observation)
    ensures Applied(Applied(p, o), o) == Applied(p, o)
  {
    MergedMarked(Merged(p, o), o);
    MergedIdempotent(p, o);
    MarkedIdempotent(Merged(p, o), o);
  }

  lemma TouchedIdempotent(payments: seq<Payment>, o: Observation)
    requires Truthy(o.paymentId)
    ensures Touched(Touched(payments, o), o) == Touched(payments, o)
  {
    var once, i := Touched(payments, o), IndexOf(payments, o.paymentId.value);
    IndexOfUnique(once, o.paymentId.value, i);
    AppliedIdempotent(if i < |payments| then payments[i] else NewPayment(o.paymentId.value), o);
    assert once[i := Applied(once[i], o)] == once;
  }

  lemma StepIdempotent(st: Order, o: Observation)
    ensures Step(Step(st, o), o) == Step(st, o)
  {
    if Truthy(o.paymentId) {
      TouchedIdempotent(st.payments, o);
    }
  }

  // ---------------------------------------------------- delivery order and repeats

  ghost predicate StrictlySorted(s: seq<Observation>) {
    Sorted(s) && forall i, j :: 0 <= i < j < |s| ==> !SameKey(s[i], s[j])
  }

  ghost function Destutter(s: seq<Observation>): seq<Observation> {
    if |s| <= 1 then s
    else
      var front, last := s[..|s| - 1], s[|s| - 1];
      if front[|front| - 1] == last then Destutter(front) else Destutter(front) + [last]
  }

  lemma {:induction false} DestutterReduces(s: seq<Observation>)
    ensures Reduced(Destutter(s)) == Reduced(s)
  {
    if |s| > 1 {
      var front, last := s[..|s| - 1], s[|s| - 1];
      DestutterReduces(front);
      if front[|front| - 1] == last {
        StepIdempotent(Reduced(front[..|front| - 1]), last);
      } else {
        assert Destutter(s)[..|Destutter(s)| - 1] == Destutter(front);
      }
    }
  }

  lemma {:induction false} DestutterStrict(s: seq<Observation>)
    requires Sorted(s) && KeyIdentifies(s)
    ensures StrictlySorted(Destutter(s))
    ensures SameElements(Destutter(s), s)
    ensures s != [] ==> Destutter(s) != [] && Destutter(s)[|Destutter(s)| - 1] == s[|s| - 1]
  {
    if |s| > 1 {
      var front, last := s[..|s| - 1], s[|s| - 1];
      assert s == front + [last];
      DestutterStrict(front);
      var d := Destutter(front);
      if front[|front| - 1] != last {
        var prior := front[|front| - 1];
        assert prior == s[|s| - 2];
        forall i | 0 <= i < |d| ensures KeyLe(d[i], last) && !SameKey(d[i], last) {
          assert d[i] in front;
          if SameKey(d[i], last) {
            if i < |d| - 1 { assert KeyLe(d[i], d[|d| - 1]); }
            KeyLeTotal(prior, last);
            LexAntisymmetricKeys(d[i], prior, last);
            assert false;
          }
        }
      }
    }
  }

  lemma LexAntisymmetricKeys(a: Observation, b: Observation, c: Observation)
    requires SameKey(a, c) && (a == b || KeyLe(a, b)) && KeyLe(b, c)
    ensures SameKey(b, c)
  {
    if a != b {
      KeyLeTotal(a, b);
    }
  }

  /** Dropping the greatest element drops it from the elements. */
  lemma WithoutLast(a: seq<Observation>)
    requires a != [] && StrictlySorted(a)
    ensures forall o :: o in a[..|a| - 1] <==> o in a && o != a[|a| - 1]
    ensures forall o :: o in a ==> KeyLe(o, a[|a| - 1])
  {
    var x := a[|a| - 1];
    KeyLeTotal(x, x);
    assert a == a[..|a| - 1] + [x];
  }

  lemma EmptyTogether<T(!new)>(a: seq<T>, b: seq<T>)
    requires SameElements(a, b)
    ensures a == [] <==> b == []
  {
    assert |a| > 0 ==> a[0] in a;
    assert |b| > 0 ==> b[0] in b;
  }

  /** A strictly sorted sequence is determined by its elements. */
  lemma {:induction false} StrictUnique(a: seq<Observation>, b: seq<Observation>)
    requires StrictlySorted(a) && StrictlySorted(b) && SameElements(a, b)
    ensures a == b
  {
    EmptyTogether(a, b);
    if a != [] {
      var x, y := a[|a| - 1], b[|b| - 1];
      SameLast(a, b);
      WithoutLast(a);
      WithoutLast(b);
      var a', b' := a[..|a| - 1], b[..|b| - 1];
      forall o ensures o in a' <==> o in b' {
        assert o in a <==> o in b;
      }
      StrictUnique(a', b');
      assert a == a[..|a| - 1] + [x] && b == b[..|b| - 1] + [y];
    }
  }

  lemma SameLast(a: seq<Observation>, b: seq<Observation>)
    requires a != [] && b != [] && StrictlySorted(a) && StrictlySorted(b) && SameElements(a, b)
    ensures a[|a| - 1] == b[|b| - 1]
  {
    var x, y := a[|a| - 1], b[|b| - 1];
    WithoutLast(a);
    WithoutLast(b);
    assert x in a && y in b && x in b && y in a;
    KeyLeTotal(x, y);
    assert SameKey(x, y);
  }

  lemma SameStateFromSameElements(a: seq<Observation>, b: seq<Observation>)
    requires SameElements(a, b) && KeyIdentifies(a)
    ensures StateOf(a) == StateOf(b)
  {
    var ca, cb := CanonicalOrder(a), CanonicalOrder(b);
    CanonicalOrderSorts(a);
    CanonicalOrderSorts(b);
    CanonicalOrderElements(a);
    CanonicalOrderElements(b);
    DestutterStrict(ca);
    DestutterStrict(cb);
    StrictUnique(Destutter(ca), Destutter(cb));
    DestutterReduces(ca);
    DestutterReduces(cb);
  }

  /** The fold is a function of the set of observations: order and repetition do not matter. */
  lemma FoldIsSetFunction(a: seq<Observation>, b: seq<Observation>, now: int, orderId: string,
                          evidence: seq<Evidence>, cfg: FoldConfig)
    requires cfg.Valid() && orderId != ""
    requires SameElements(a, b) && KeyIdentifies(a)
    ensures FoldOf(a, now, orderId, evidence, cfg) == FoldOf(b, now, orderId, evidence, cfg)
  {
    SameStateFromSameElements(a, b);
    EmptyTogether(a, b);
  }

  // ------------------------------------------------------------------- arrival time

  /** An observation without the time we saw it. */
  function Stripped(o: Observation): Observation { o.(receivedAt := 0) }

  function StrippedAll(s: seq<Observation>): (r: seq<Observation>)
    ensures |r| == |s|
    ensures forall i :: 0 <= i < |s| ==> r[i] == Stripped(s[i])
  {
    seq(|s|, i requires 0 <= i < |s| => Stripped(s[i]))
  }

  lemma StrippedPrepend(x: Observation, s: seq<Observation>)
    ensures StrippedAll([x] + s) == [Stripped(x)] + StrippedAll(s)
  {
  }

  lemma {:induction false} StripInsert(o: Observation, s: seq<Observation>)
    ensures StrippedAll(Insert(o, s)) == Insert(Stripped(o), StrippedAll(s))
  {
    if s == [] || KeyLe(o, s[0]) {
      StrippedPrepend(o, s);
    } else {
      var head, tail := s[0], s[1..];
      StripInsert(o, tail);
      StrippedPrepend(head, Insert(o, tail));
      InsertAfter(Stripped(o), Stripped(head), StrippedAll(tail));
      StrippedPrepend(head, tail);
      assert s == [head] + tail;
    }
  }

  lemma InsertAfter(o: Observation, head: Observation, tail: seq<Observation>)
    requires !KeyLe(o, head)
    ensures Insert(o, [head] + tail) == [head] + Insert(o, tail)
  {
    assert ([head] + tail)[1..] == tail;
  }

  lemma {:induction false} StripCanonical(s: seq<Observation>)
    ensures StrippedAll(CanonicalOrder(s)) == CanonicalOrder(StrippedAll(s))
  {
    if s != [] {
      StripCanonical(s[1..]);
      StripInsert(s[0], CanonicalOrder(s[1..]));
      assert StrippedAll(s)[1..] == StrippedAll(s[1..]);
    }
  }

  lemma AppliedIgnoresArrival(p: Payment, o: Observation)
    ensures Applied(p, Stripped(o)) == Applied(p, o)
  {
    assert Merged(p, Stripped(o)) == Merged(p, o);
  }

  lemma StepIgnoresArrival(st: Order, o: Observation)
    ensures Step(st, Stripped(o)) == Step(st, o)
  {
    if Truthy(o.paymentId) {
      var i := IndexOf(st.payments, o.paymentId.value);
      AppliedIgnoresArrival(if i < |st.payments| then st.payments[i] else NewPayment(o.paymentId.value), o);
      assert Touched(st.payments, Stripped(o)) == Touched(st.payments, o);
    }
  }

  lemma {:induction false} StripReduced(s: seq<Observation>)
    ensures Reduced(StrippedAll(s)) == Reduced(s)
  {
    if s != [] {
      var front := s[..|s| - 1];
      StripReduced(front);
      StepIgnoresArrival(Reduced(front), s[|s| - 1]);
      assert StrippedAll(s)[..|s| - 1] == StrippedAll(front);
    }
  }

  /** Convergence of the fold: streams of the same events, delivered in any order, any number
      of times and at any moments, fold alike. */
  lemma FoldIgnoresDelivery(a: seq<Observation>, b: seq<Observation>, now: int, orderId: string,
                            evidence: seq<Evidence>, cfg: FoldConfig)
    requires cfg.Valid() && orderId != ""
    requires SameElements(StrippedAll(a), StrippedAll(b)) && KeyIdentifies(StrippedAll(a))
    ensures FoldOf(a, now, orderId, evidence, cfg) == FoldOf(b, now, orderId, evidence, cfg)
  {
    StripCanonical(a);
    StripReduced(CanonicalOrder(a));
    StripCanonical(b);
    StripReduced(CanonicalOrder(b));
    FoldIsSetFunction(StrippedAll(a), StrippedAll(b), now, orderId, evidence, cfg);
  }

  // --------------------------------------------------------------- a capture settles

  predicate StatusEvent(t: EventType) {
    t == PaymentFailed || t == PaymentAuthorized || t == PaymentCaptured || t == RefundProcessed
  }

  /** The last event of s that sets the status of payment `id` is its capture. */
  ghost predicate LastStatusIsCapture(s: seq<Observation>, id: string) {
    exists i :: 0 <= i < |s| && CapturesAt(s, id, i)
  }

  ghost predicate CapturesAt(s: seq<Observation>, id: string, i: int)
    requires 0 <= i < |s|
  {
    && s[i].eventType == PaymentCaptured && s[i].paymentId == Some(id)
    && forall j :: i < j < |s| && s[j].paymentId == Some(id)
         ==> !StatusEvent(s[j].eventType) || s[j].eventType == PaymentCaptured
  }

  /** A stream without order totals in which every attempt is for the same positive amount. */
  ghost predicate CommonAmount(s: seq<Observation>, amount: nat) {
    forall o :: o in s ==> o.amountPaid == 0 && o.amountDue <= amount && (Truthy(o.paymentId) ==> o.amount == amount)
  }

  lemma {:induction false} CaptureStands(s: seq<Observation>, id: string)
    requires id != "" && LastStatusIsCapture(s, id)
    ensures Find(Reduced(s).payments, id).Some? && Find(Reduced(s).payments, id).value.status == Some(Captured)
  {
    var i :| 0 <= i < |s| && CapturesAt(s, id, i);
    var front, last := s[..|s| - 1], s[|s| - 1];
    if Truthy(last.paymentId) {
      FindAfterTouch(Reduced(front).payments, last, id);
    }
    if i < |s| - 1 {
      assert CapturesAt(front, id, i);
      CaptureStands(front, id);
    }
  }

  lemma {:induction false} AmountsStand(s: seq<Observation>, amount: nat)
    requires amount > 0 && CommonAmount(s, amount)
    ensures Reduced(s).amountPaidReported == 0 && Reduced(s).amountDue <= amount
    ensures forall p :: p in Reduced(s).payments ==> p.amount == amount
  {
    if s != [] {
      var front, last := s[..|s| - 1], s[|s| - 1];
      assert last in s;
      AmountsStand(front, amount);
    }
  }

  lemma {:induction false} LargestOfCommon(payments: seq<Payment>, amount: nat)
    requires payments != [] && forall p :: p in payments ==> p.amount == amount
    ensures LargestAmount(payments) == amount
  {
    if |payments| > 1 {
      LargestOfCommon(payments[1..], amount);
    }
  }

  lemma {:induction false} TotalAtLeast(payments: seq<Payment>, p: Payment)
    requires p in payments
    ensures TotalAmount(payments) >= p.amount
  {
    if payments[0] != p {
      assert p in payments[1..];
      TotalAtLeast(payments[1..], p);
    }
  }

  /** A capture always settles: whatever failed beside it, in whatever order and under whatever
      evidence, the verdict is ORDER_SETTLED. */
  lemma CaptureSettles(obs: seq<Observation>, id: string, amount: nat, now: int, orderId: string,
                       evidence: seq<Evidence>, cfg: FoldConfig)
    requires cfg.Valid() && id != "" && amount > 0
    requires CommonAmount(obs, amount) && LastStatusIsCapture(CanonicalOrder(obs), id)
    ensures FoldOf(obs, now, orderId, evidence, cfg).verdict == OrderSettled
  {
    var s := CanonicalOrder(obs);
    CanonicalOrderElements(obs);
    CaptureStands(s, id);
    AmountsStand(s, amount);
    PaidInFull(Reduced(s), Find(Reduced(s).payments, id).value, amount);
    FullCaptureSettles(StateOf(obs), now, evidence, cfg);
  }

  lemma PaidInFull(st: Order, p: Payment, amount: nat)
    requires p in st.payments && p.status == Some(Captured) && amount > 0
    requires st.amountPaidReported == 0 && st.amountDue <= amount
    requires forall q :: q in st.payments ==> q.amount == amount
    ensures WithStatus(st.payments, Captured) != []
    ensures 0 < Finished(st).amountDue <= AmountPaid(Finished(st))
  {
    LargestOfCommon(st.payments, amount);
    assert p in WithStatus(st.payments, Captured);
    TotalAtLeast(WithStatus(st.payments, Captured), p);
  }

  lemma FullCaptureSettles(st: Order, now: int, evidence: seq<Evidence>, cfg: FoldConfig)
    requires cfg.Valid() && WithStatus(st.payments, Captured) != [] && 0 < st.amountDue <= AmountPaid(st)
    ensures Judge(st, now, evidence, cfg).verdict == OrderSettled
  {
  }

  function PaymentEvent(eventId: string, t: EventType, id: string, at: int, received: int,
                        status: PaymentStatus): Observation {
    Observation(eventId, t, "order", Some(id), at, received, Reported(status), 49_900, 0, 0, Some("upi"),
                Network, PaymentResponse, OtherReason("timeout"), None, None, "", "", "")
  }

  /** The stream of scenario A: the capture happened last and arrived first, and the last write
      says failed. */
  lemma LastWriteLosesTheCapture(cfg: FoldConfig, now: int, evidence: seq<Evidence>)
    requires cfg.Valid()
    ensures var obs := [PaymentEvent("e2", PaymentCaptured, "pay_B", 47, 50, Captured),
                        PaymentEvent("e1", PaymentFailed, "pay_A", 18, 60, Failed)];
            && NaiveLastWrite(obs) == Reported(Failed)
            && FoldOf(obs, now, "order", evidence, cfg).verdict == OrderSettled
  {
    var captured := PaymentEvent("e2", PaymentCaptured, "pay_B", 47, 50, Captured);
    var failed := PaymentEvent("e1", PaymentFailed, "pay_A", 18, 60, Failed);
    var obs := [captured, failed];
    assert obs[1..] == [failed] && [failed][1..] == [];
    assert ByArrival([failed]) == [failed];
    assert InsertByArrival(captured, [failed]) == obs;
    assert ByArrival(obs) == obs;
    assert Insert(failed, []) == [failed];
    assert CanonicalOrder([failed]) == [failed];
    assert Insert(captured, [failed]) == [failed, captured];
    var s := CanonicalOrder(obs);
    assert s == [failed, captured];
    assert CapturesAt(s, "pay_B", 1);
    CaptureSettles(obs, "pay_B", 49_900, now, "order", evidence, cfg);
  }

  // ---------------------------------------------------------------------------- time

  lemma FlippableOnlyDecays(p: Payment, t1: int, t2: int, cfg: FoldConfig, evidence: seq<Evidence>)
    requires cfg.Valid() && t1 <= t2
    ensures Flippable(p, t2, cfg, evidence) ==> Flippable(p, t1, cfg, evidence)
  {
  }

  lemma OrderRulesIgnoreTime(st: Order, t1: int, t2: int, evidence: seq<Evidence>, cfg: FoldConfig)
    requires cfg.Valid()
    ensures var a, b := JudgeOrder(st, t1, evidence, cfg), JudgeOrder(st, t2, evidence, cfg);
            && (a.None? <==> b.None?)
            && (a.Some? ==> a.value.verdict == b.value.verdict != PendingTat && a.value.confidence == b.value.confidence
                            && a.value.rules == b.value.rules)
  {
  }

  ghost predicate TimeMoves(a: Ruling, b: Ruling, t2: int) {
    && (a.verdict == b.verdict ==> a.confidence == b.confidence && a.rules == b.rules)
    && (a.verdict != PendingTat ==> b.verdict == a.verdict)
    && (a.verdict == PendingTat ==>
          && a.recheckAt.Some?
          && (b.verdict == PendingTat <==> t2 <= a.recheckAt.value - 60)
          && (b.verdict == PendingTat ==> b.recheckAt == a.recheckAt)
          && (b.verdict == PendingTat || b.verdict == Unresolved || b.verdict == ConfirmedFailed))
  }

  lemma FailureRulesOverTime(p: Payment, t1: int, t2: int, evidence: seq<Evidence>, cfg: FoldConfig)
    requires cfg.Valid() && t1 <= t2
    ensures TimeMoves(JudgeFailure(p, t1, evidence, cfg), JudgeFailure(p, t2, evidence, cfg), t2)
    ensures JudgeFailure(p, t1, evidence, cfg).verdict == PendingTat
            ==> t1 <= JudgeFailure(p, t1, evidence, cfg).recheckAt.value - 60
  {
    var unverified := ClaimAssessment(evidence, p) == Some(Unverified);
    assert TimeMoves(JudgeUnclaimed(p, t1, unverified, cfg), JudgeUnclaimed(p, t2, unverified, cfg), t2);
  }

  lemma JudgeOverTime(st: Order, t1: int, t2: int, evidence: seq<Evidence>, cfg: FoldConfig)
    requires cfg.Valid() && t1 <= t2
    ensures TimeMoves(Judge(st, t1, evidence, cfg), Judge(st, t2, evidence, cfg), t2)
  {
    OrderRulesIgnoreTime(st, t1, t2, evidence, cfg);
    if JudgeOrder(st, t1, evidence, cfg).None? {
      FailureRulesOverTime(LatestFailure(WithStatus(st.payments, Failed)), t1, t2, evidence, cfg);
    }
  }

  /** The one change time makes: PENDING_TAT ends just past its deadline, sixty seconds before
      the recheck, in UNRESOLVED or CONFIRMED_FAILED; and no attempt becomes flippable again. */
  lemma VerdictOverTime(obs: seq<Observation>, t1: int, t2: int, orderId: string, evidence: seq<Evidence>,
                        cfg: FoldConfig)
    requires cfg.Valid() && t1 <= t2
    ensures var a, b := FoldOf(obs, t1, orderId, evidence, cfg), FoldOf(obs, t2, orderId, evidence, cfg);
            && (b.anySiblingNonTerminal ==> a.anySiblingNonTerminal)
            && (a.verdict == b.verdict ==> a.confidence == b.confidence && a.rulesFired == b.rulesFired)
            && (a.verdict != PendingTat ==> b.verdict == a.verdict)
            && (a.verdict == PendingTat ==>
                  && a.recheckAt.Some?
                  && (b.verdict == PendingTat <==> t2 <= a.recheckAt.value - 60)
                  && (b.verdict == PendingTat ==> b.recheckAt == a.recheckAt)
                  && (b.verdict == PendingTat || b.verdict == Unresolved || b.verdict == ConfirmedFailed))
  {
    var st := StateOf(obs);
    if AnyFlippable(st, t2, cfg, evidence) {
      var p :| p in st.payments && Flippable(p, t2, cfg, evidence);
      FlippableOnlyDecays(p, t1, t2, cfg, evidence);
    }
    JudgeOverTime(st, t1, t2, evidence, cfg);
  }

  /** Folding again at the recheck time is never another wait, and that time is ahead. */
  lemma RecheckLeavesPendingTat(obs: seq<Observation>, now: int, recheck: int, later: int, orderId: string,
                                evidence: seq<Evidence>, cfg: FoldConfig)
    requires cfg.Valid() && recheck <= later
    requires var r := FoldOf(obs, now, orderId, evidence, cfg); r.verdict == PendingTat && r.recheckAt == Some(recheck)
    ensures FoldOf(obs, later, orderId, evidence, cfg).verdict != PendingTat
    ensures now < recheck
  {
    var st := StateOf(obs);
    OrderRulesIgnoreTime(st, now, now, evidence, cfg);
    FailureRulesOverTime(LatestFailure(WithStatus(st.payments, Failed)), now, now, evidence, cfg);
    VerdictOverTime(obs, now, later, orderId, evidence, cfg);
  }

  // -------------------------------------------------------------------------- claims

  predicate UsableClaim(e: Evidence) {
    e.source == CustomerClaimSource && e.available && e.value.Fields? && e.value.claim.Some?
  }

  predicate HoldsClaim(evidence: seq<Evidence>) {
    exists e :: e in evidence && UsableClaim(e)
  }

  function AssessmentOf(c: Evidence, p: Payment): ClaimMatch
    requires UsableClaim(c)
  {
    AssessClaim(c.value.claim, p.rrn, p.upiTransactionId, c.value.rawText)
  }

  lemma {:induction false} NoClaimNoAssessment(evidence: seq<Evidence>, p: Payment)
    ensures ClaimAssessment(evidence, p).None? <==> !HoldsClaim(evidence)
  {
    if evidence != [] {
      var rest := evidence[1..];
      NoClaimNoAssessment(rest, p);
      assert evidence[0] in evidence && forall e :: e in evidence <==> e == evidence[0] || e in rest;
    }
  }

  /** The first usable claim says that money has left. */
  predicate FirstDebited(evidence: seq<Evidence>) {
    evidence != [] &&
    if UsableClaim(evidence[0]) then evidence[0].value.claim.value.claimsDebited else FirstDebited(evidence[1..])
  }

  /** A claim that confirms some payment: a debit with digits quoted, or with a reference in the text. */
  predicate CanConfirm(c: Evidence)
    requires UsableClaim(c)
  {
    var claim := c.value.claim.value;
    claim.claimsDebited && (NormaliseReference(claim.reference) != "" || ReferencesIn(c.value.rawText) != [])
  }

  /** The first usable claim does. */
  predicate FirstCanConfirm(evidence: seq<Evidence>) {
    evidence != [] &&
    if UsableClaim(evidence[0]) then CanConfirm(evidence[0]) else FirstCanConfirm(evidence[1..])
  }

  lemma {:induction false} FirstClaimAssessed(evidence: seq<Evidence>, p: Payment)
    ensures !FirstDebited(evidence) ==> ClaimAssessment(evidence, p) in {None, Some(NoMatch)}
    ensures !FirstCanConfirm(evidence) ==> ClaimAssessment(evidence, p) != Some(Confirms)
    ensures FirstCanConfirm(evidence) ==> FirstDebited(evidence)
    ensures FirstDebited(evidence) ==> HoldsClaim(evidence)
  {
    if evidence != [] {
      assert evidence[0] in evidence;
      if !UsableClaim(evidence[0]) {
        FirstClaimAssessed(evidence[1..], p);
        assert HoldsClaim(evidence[1..]) ==> HoldsClaim(evidence);
      }
    }
  }

  /** The first usable claim decides, wherever the evidence is cut. */
  lemma {:induction false} AssessmentOfJoined(a: seq<Evidence>, b: seq<Evidence>, p: Payment)
    ensures ClaimAssessment(a + b, p)
            == if ClaimAssessment(a, p).Some? then ClaimAssessment(a, p) else ClaimAssessment(b, p)
  {
    if a == [] {
      assert a + b == b;
    } else {
      AssessmentOfJoined(a[1..], b, p);
      assert (a + b)[1..] == a[1..] + b;
    }
  }

  /** So an inserted claim decides unless one stands before it. */
  lemma AssessmentOfInserted(a: seq<Evidence>, c: Evidence, b: seq<Evidence>, p: Payment)
    requires UsableClaim(c)
    ensures ClaimAssessment(a + [c] + b, p)
            == if HoldsClaim(a) then ClaimAssessment(a + b, p) else Some(AssessmentOf(c, p))
    ensures !HoldsClaim(a) ==> ClaimAssessment(a + b, p) == ClaimAssessment(b, p)
  {
    NoClaimNoAssessment(a, p);
    AssessmentOfJoined(a, b, p);
    AssessmentOfJoined(a, [c] + b, p);
    assert a + [c] + b == a + ([c] + b);
    assert ClaimAssessment([c] + b, p) == Some(AssessmentOf(c, p));
  }

  lemma {:induction false} MissingJoined(a: seq<Evidence>, b: seq<Evidence>)
    ensures Missing(a + b) == Missing(a) + Missing(b)
  {
    if a == [] {
      assert a + b == b;
    } else {
      MissingJoined(a[1..], b);
      assert (a + b)[1..] == a[1..] + b;
    }
  }

  lemma InsertedClaimIsNotMissing(a: seq<Evidence>, c: Evidence, b: seq<Evidence>)
    requires UsableClaim(c)
    ensures Missing(a + [c] + b) == Missing(a + b)
  {
    MissingJoined(a, b);
    MissingJoined(a + [c], b);
    MissingJoined(a, [c]);
    assert [c][1..] == [];
  }

  /** Apart from the claim rules, nothing in the fold sees an inserted claim. */
  lemma InsertedClaimIsOtherwiseInvisible(a: seq<Evidence>, c: Evidence, b: seq<Evidence>)
    requires UsableClaim(c)
    ensures forall rail :: DowntimeMatches(a + [c] + b, rail) == DowntimeMatches(a + b, rail)
    ensures forall st :: SettledByProbe(st, a + [c] + b) == SettledByProbe(st, a + b)
  {
    var with, without := a + [c] + b, a + b;
    assert forall e :: e in with <==> e in without || e == c;
    forall rail ensures DowntimeMatches(with, rail) == DowntimeMatches(without, rail) {
      if DowntimeMatches(without, rail) {
        var e :| e in without && e.source == DowntimeSource && e.available && e.value.Fields? && e.value.active
                 && (e.value.rail.None? || rail.None? || e.value.rail == rail);
        assert e in with;
      }
    }
    forall st ensures SettledByProbe(st, with) == SettledByProbe(st, without) {
      if SettledByProbe(st, without) {
        var e :| e in without && e.source == SettlementSource && e.available && e.value.Text?
                 && e.value.text != "" && IndexOf(st.payments, e.value.text) < |st.payments|;
        assert e in with;
      }
    }
  }

  lemma ClaimInvisibleToSiblings(st: Order, now: int, cfg: FoldConfig, a: seq<Evidence>, c: Evidence, b: seq<Evidence>)
    requires cfg.Valid() && UsableClaim(c)
    ensures AnyFlippable(st, now, cfg, a + [c] + b) == AnyFlippable(st, now, cfg, a + b)
  {
    InsertedClaimIsOtherwiseInvisible(a, c, b);
    assert forall p :: Flippable(p, now, cfg, a + [c] + b) == Flippable(p, now, cfg, a + b);
  }

  lemma ClaimInvisibleToOrderRules(st: Order, now: int, a: seq<Evidence>, c: Evidence, b: seq<Evidence>,
                                   cfg: FoldConfig)
    requires cfg.Valid() && UsableClaim(c)
    ensures JudgeOrder(st, now, a + [c] + b, cfg) == JudgeOrder(st, now, a + b, cfg)
  {
    InsertedClaimIsOtherwiseInvisible(a, c, b);
  }

  /** The claim quotes a reference of the order's latest failed payment. */
  ghost predicate ClaimMatchesLatestFailure(st: Order, c: Evidence)
    requires UsableClaim(c)
  {
    var failed := WithStatus(st.payments, Failed);
    failed != [] && AssessmentOf(c, LatestFailure(failed)) == Confirms
  }

  /** Ruling r is s, or DUPLICATE_RISK on a match of this claim, or as sure as s at most. */
  ghost predicate RestrictsTo(r: Ruling, s: Ruling, matches: bool) {
    && (r.verdict != s.verdict ==>
          r.verdict == DuplicateRisk && r.confidence == 9_000 && r.rules == [R10b_CustomerConfirmsDebit] && matches)
    && (r.verdict == s.verdict ==> r.confidence <= s.confidence && r.recheckAt == s.recheckAt)
  }

  lemma ClaimRestrictsFailureRules(p: Payment, now: int, a: seq<Evidence>, c: Evidence, b: seq<Evidence>,
                                   cfg: FoldConfig)
    requires cfg.Valid() && UsableClaim(c) && (HoldsClaim(a) || !FirstDebited(b))
    ensures RestrictsTo(JudgeFailure(p, now, a + [c] + b, cfg), JudgeFailure(p, now, a + b, cfg),
                        AssessmentOf(c, p) == Confirms)
    ensures HoldsClaim(a) ==> JudgeFailure(p, now, a + [c] + b, cfg) == JudgeFailure(p, now, a + b, cfg)
  {
    InsertedClaimIsOtherwiseInvisible(a, c, b);
    AssessmentOfInserted(a, c, b, p);
    FirstClaimAssessed(b, p);
    RulesReadClaim(p, now, a + [c] + b, a + b, cfg);
  }

  /** The failure rules read of claims their assessment, and no claim as one of no debit. */
  lemma RulesReadClaim(p: Payment, now: int, e: seq<Evidence>, f: seq<Evidence>, cfg: FoldConfig)
    requires cfg.Valid() && DowntimeMatches(e, p.rail) == DowntimeMatches(f, p.rail)
    ensures ClaimAssessment(e, p) == ClaimAssessment(f, p) ==>
              JudgeFailure(p, now, e, cfg) == JudgeFailure(p, now, f, cfg)
    ensures ClaimAssessment(f, p) in {None, Some(NoMatch)} ==>
              RestrictsTo(JudgeFailure(p, now, e, cfg), JudgeFailure(p, now, f, cfg),
                          ClaimAssessment(e, p) == Some(Confirms))
  {
  }

  lemma ClaimRestrictsRuling(st: Order, now: int, a: seq<Evidence>, c: Evidence, b: seq<Evidence>, cfg: FoldConfig)
    requires cfg.Valid() && UsableClaim(c) && (HoldsClaim(a) || !FirstDebited(b))
    ensures RestrictsTo(Judge(st, now, a + [c] + b, cfg), Judge(st, now, a + b, cfg), ClaimMatchesLatestFailure(st, c))
    ensures HoldsClaim(a) ==> Judge(st, now, a + [c] + b, cfg) == Judge(st, now, a + b, cfg)
    ensures JudgeOrder(st, now, a + b, cfg).Some? ==> Judge(st, now, a + [c] + b, cfg) == Judge(st, now, a + b, cfg)
  {
    ClaimInvisibleToOrderRules(st, now, a, c, b, cfg);
    if JudgeOrder(st, now, a + b, cfg).None? {
      ClaimRestrictsFailureRules(LatestFailure(WithStatus(st.payments, Failed)), now, a, c, b, cfg);
    }
  }

  /** A customer's claim only takes permission away, wherever it stands among the evidence, unless it is
      put in front of a claim that money has left: it turns the verdict into DUPLICATE_RISK on a reference
      match with the latest failure, and otherwise leaves it and never adds confidence. */
  lemma ClaimOnlyRestricts(obs: seq<Observation>, now: int, orderId: string, a: seq<Evidence>, c: Evidence,
                           b: seq<Evidence>, cfg: FoldConfig)
    requires cfg.Valid() && UsableClaim(c) && (HoldsClaim(a) || !FirstDebited(b))
    ensures var without, with := FoldOf(obs, now, orderId, a + b, cfg), FoldOf(obs, now, orderId, a + [c] + b, cfg);
            && with.anySiblingNonTerminal == without.anySiblingNonTerminal
            && (with.verdict != without.verdict ==>
                  && with.verdict == DuplicateRisk && with.confidence <= 9_000
                  && with.rulesFired == [R10b_CustomerConfirmsDebit]
                  && ClaimMatchesLatestFailure(StateOf(obs), c))
            && (with.verdict == without.verdict ==>
                  with.confidence <= without.confidence && with.recheckAt == without.recheckAt)
  {
    ClaimRestrictsResult(StateOf(obs), obs == [], now, OrderIdOf(obs, orderId), a, c, b, cfg);
  }

  lemma ClaimRestrictsResult(st: Order, empty: bool, now: int, orderId: string, a: seq<Evidence>, c: Evidence,
                             b: seq<Evidence>, cfg: FoldConfig)
    requires cfg.Valid() && UsableClaim(c) && (HoldsClaim(a) || !FirstDebited(b))
    ensures var without := FoldState(st, empty, now, orderId, a + b, cfg);
            var with := FoldState(st, empty, now, orderId, a + [c] + b, cfg);
            && with.anySiblingNonTerminal == without.anySiblingNonTerminal
            && (with.verdict != without.verdict ==>
                  && with.verdict == DuplicateRisk && with.confidence <= 9_000
                  && with.rulesFired == [R10b_CustomerConfirmsDebit]
                  && ClaimMatchesLatestFailure(st, c))
            && (with.verdict == without.verdict ==>
                  with.confidence <= without.confidence && with.recheckAt == without.recheckAt)
    ensures HoldsClaim(a)
            ==> FoldState(st, empty, now, orderId, a + [c] + b, cfg) == FoldState(st, empty, now, orderId, a + b, cfg)
    ensures JudgeOrder(st, now, a + b, cfg).Some? ==>
              FoldState(st, empty, now, orderId, a + [c] + b, cfg).verdict
                == FoldState(st, empty, now, orderId, a + b, cfg).verdict
  {
    InsertedClaimIsNotMissing(a, c, b);
    ClaimInvisibleToSiblings(st, now, cfg, a, c, b);
    ClaimRestrictsRuling(st, now, a, c, b, cfg);
  }

  /** Behind another claim, as the resolver's later rounds put it, a claim changes nothing at all: the
      first one a customer's words were read into stands. */
  lemma LaterClaimIsIgnored(obs: seq<Observation>, now: int, orderId: string, a: seq<Evidence>, c: Evidence,
                            b: seq<Evidence>, cfg: FoldConfig)
    requires cfg.Valid() && UsableClaim(c) && HoldsClaim(a)
    ensures FoldOf(obs, now, orderId, a + [c] + b, cfg) == FoldOf(obs, now, orderId, a + b, cfg)
  {
    ClaimRestrictsResult(StateOf(obs), obs == [], now, OrderIdOf(obs, orderId), a, c, b, cfg);
  }
}
