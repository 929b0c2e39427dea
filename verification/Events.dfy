/** Observations and their store: core/events.py.

    Fields hold what `parse_webhook` extracts. An error source, step or reason is the
    enumeration the fold compares it with; every other text is the catch-all case. */
module Events {
  import opened Common

  datatype EventType =
    | PaymentFailed | PaymentAuthorized | PaymentCaptured
    | RefundProcessed | RefundFailed
    | OrderPaid | SettlementProcessed
    | OtherEvent(name: string)

  datatype PaymentStatus = Created | Authorized | Captured | Refunded | Failed

  /** The `status` text of an entity: absent, one of the enumeration, or some other text. */
  datatype ReportedStatus = NoStatus | Reported(status: PaymentStatus) | Unrecognised(text: string)

  datatype ErrorSource = Customer | Business | Network | Gateway | Bank | Issuer | UnknownSource

  datatype ErrorStep =
    | PaymentInitiation | PaymentAuthentication | PaymentResponse | PaymentCapture | OtherStep

  datatype ErrorReason =
    | PaymentCancelled | PaymentFailedByUser | UserCancelled | PaymentTimeout | InvalidVpa
    | CardDeclinedByUser | OtherReason(reason: string)

  datatype Observation = Observation(
    eventId: string,
    eventType: EventType,
    orderId: string,
    paymentId: Option<string>,
    eventTime: int,
    receivedAt: int,
    status: ReportedStatus,
    amount: nat,
    amountPaid: nat,
    amountDue: nat,
    rail: Option<string>,  // the payment method: upi, card, netbanking, ...
    errorSource: ErrorSource,
    errorStep: ErrorStep,
    errorReason: ErrorReason,
    rrn: Option<string>,
    upiTransactionId: Option<string>,
    sourceOrder: string,  // notes.source_order on the payment entity, "" when absent
    contact: string,
    email: string)

  /** The sort key of `canonical_order`: event time, then event id. */
  predicate KeyLe(a: Observation, b: Observation) {
    a.eventTime < b.eventTime || (a.eventTime == b.eventTime && LexLe(a.eventId, b.eventId))
  }

  predicate SameKey(a: Observation, b: Observation) {
    a.eventTime == b.eventTime && a.eventId == b.eventId
  }

  ghost predicate Sorted(s: seq<Observation>) {
    forall i, j :: 0 <= i < j < |s| ==> KeyLe(s[i], s[j])
  }

  lemma KeyLeTransitive(a: Observation, b: Observation, c: Observation)
    requires KeyLe(a, b) && KeyLe(b, c)
    ensures KeyLe(a, c)
  {
    if a.eventTime == b.eventTime == c.eventTime {
      LexTransitive(a.eventId, b.eventId, c.eventId);
    }
  }

  lemma KeyLeTotal(a: Observation, b: Observation)
    ensures KeyLe(a, b) || KeyLe(b, a)
    ensures KeyLe(a, b) && KeyLe(b, a) ==> SameKey(a, b)
  {
    LexTotal(a.eventId, b.eventId);
    if KeyLe(a, b) && KeyLe(b, a) {
      LexAntisymmetric(a.eventId, b.eventId);
    }
  }

  /** Stable insertion: o goes before the first element whose key is not below its own. */
  function Insert(o: Observation, s: seq<Observation>): seq<Observation> {
    if s == [] || KeyLe(o, s[0]) then [o] + s else [s[0]] + Insert(o, s[1..])
  }

  /** `canonical_order`: Python's stable sort by (event_time, event_id). */
  function CanonicalOrder(s: seq<Observation>): seq<Observation> {
    if s == [] then [] else Insert(s[0], CanonicalOrder(s[1..]))
  }

  lemma {:induction false} InsertPermutes(o: Observation, s: seq<Observation>)
    ensures multiset(Insert(o, s)) == multiset{o} + multiset(s)
  {
    if s != [] && !KeyLe(o, s[0]) {
      InsertPermutes(o, s[1..]);
      assert s == [s[0]] + s[1..];
    }
  }

  lemma {:induction false} InsertSorts(o: Observation, s: seq<Observation>)
    requires Sorted(s)
    ensures Sorted(Insert(o, s))
    ensures forall p :: p in Insert(o, s) <==> p == o || p in s
  {
    if s == [] {
    } else if KeyLe(o, s[0]) {
      forall k | 0 < k < |s| ensures KeyLe(o, s[k]) {
        KeyLeTransitive(o, s[0], s[k]);
      }
    } else {
      InsertSorts(o, s[1..]);
      KeyLeTotal(o, s[0]);
      var t := Insert(o, s[1..]);
      assert s == [s[0]] + s[1..];
      forall k | 0 <= k < |t| ensures KeyLe(s[0], t[k]) {
        assert t[k] in t;
      }
    }
  }

  /** The canonical order is sorted and is a permutation of the observations. */
  lemma {:induction false} CanonicalOrderSorts(s: seq<Observation>)
    ensures Sorted(CanonicalOrder(s))
    ensures multiset(CanonicalOrder(s)) == multiset(s)
    ensures |CanonicalOrder(s)| == |s|
  {
    if s != [] {
      CanonicalOrderSorts(s[1..]);
      InsertPermutes(s[0], CanonicalOrder(s[1..]));
      InsertSorts(s[0], CanonicalOrder(s[1..]));
      assert s == [s[0]] + s[1..];
    }
    assert |multiset(CanonicalOrder(s))| == |multiset(s)|;
  }

  /** By time first, and at one time by id. */
  lemma CanonicalByTimeThenId(s: seq<Observation>, i: int, j: int)
    requires 0 <= i < j < |s|
    ensures |CanonicalOrder(s)| == |s|
    ensures var o, p := CanonicalOrder(s)[i], CanonicalOrder(s)[j];
            o.eventTime < p.eventTime || (o.eventTime == p.eventTime && LexLe(o.eventId, p.eventId))
  {
    CanonicalOrderSorts(s);
  }

  lemma CanonicalOrderElements(s: seq<Observation>)
    ensures forall o :: o in CanonicalOrder(s) <==> o in s
  {
    CanonicalOrderSorts(s);
    forall o ensures o in CanonicalOrder(s) <==> o in s {
      assert o in CanonicalOrder(s) <==> o in multiset(CanonicalOrder(s));
      assert o in s <==> o in multiset(s);
    }
  }

  /** `(event_time, event_id)` identifies an observation. */
  ghost predicate KeyIdentifies(s: seq<Observation>) {
    forall o, p :: o in s && p in s && SameKey(o, p) ==> o == p
  }

  ghost predicate SameElements<T(!new)>(s: seq<T>, t: seq<T>) {
    forall o :: o in s <==> o in t
  }

  // ------------------------------------------------------------------------ store

  ghost function RowsOf(rows: seq<Observation>, orderId: string): seq<Observation> {
    if rows == [] then []
    else
      var rest := RowsOf(rows[..|rows| - 1], orderId);
      if rows[|rows| - 1].orderId == orderId then rest + [rows[|rows| - 1]] else rest
  }

  /** The order's rows are found row by row and keep their order. */
  lemma {:induction false} RowsOfJoin(a: seq<Observation>, b: seq<Observation>, orderId: string)
    ensures RowsOf(a + b, orderId) == RowsOf(a, orderId) + RowsOf(b, orderId)
    decreases |b|
  {
    if b == [] {
      assert a + b == a;
    } else {
      RowsOfJoin(a, b[..|b| - 1], orderId);
      assert (a + b)[..|a + b| - 1] == a + b[..|b| - 1];
    }
  }

  lemma RowsOfOne(o: Observation, orderId: string)
    ensures RowsOf([o], orderId) == if o.orderId == orderId then [o] else []
  {
    assert [o][..0] == [];
  }

  lemma {:induction false} RowsOfElements(rows: seq<Observation>, orderId: string)
    ensures forall o :: o in RowsOf(rows, orderId) <==> o in rows && o.orderId == orderId
  {
    if rows != [] {
      RowsOfElements(rows[..|rows| - 1], orderId);
      assert rows == rows[..|rows| - 1] + [rows[|rows| - 1]];
    }
  }

  /** What one append does to the rows: nothing when `(order_id, event_id)` is already there. */
  function Appended(rows: seq<Observation>, o: Observation): seq<Observation> {
    if exists r :: r in rows && r.orderId == o.orderId && r.eventId == o.eventId then rows else rows + [o]
  }

  ghost predicate UniqueRows(rows: seq<Observation>) {
    forall i, j :: 0 <= i < j < |rows| ==> (rows[i].orderId, rows[i].eventId) != (rows[j].orderId, rows[j].eventId)
  }

  lemma AppendedUnique(rows: seq<Observation>, o: Observation)
    requires UniqueRows(rows)
    ensures UniqueRows(Appended(rows, o))
  {
  }

  class InMemoryStore {
    var rows: seq<Observation>
    var seen: set<(string, string)>

    ghost predicate Valid()
      reads this
    {
      && UniqueRows(rows)
      && forall k :: k in seen <==> exists r :: r in rows && k == (r.orderId, r.eventId)
    }

    constructor ()
      ensures Valid() && rows == []
    {
      rows, seen := [], {};
    }

    method Append(o: Observation) returns (isNew: bool)
      requires Valid()
      modifies this
      ensures Valid()
      ensures rows == Appended(old(rows), o)
      ensures isNew <==> forall r :: r in old(rows) ==> (r.orderId, r.eventId) != (o.orderId, o.eventId)
    {
      var key := (o.orderId, o.eventId);
      if key in seen {
        return false;
      }
      seen := seen + {key};
      rows := rows + [o];
      return true;
    }

    method Load(orderId: string) returns (r: seq<Observation>)
      requires Valid()
      ensures r == RowsOf(rows, orderId)
    {
      r := [];
      for i := 0 to |rows|
        invariant r == RowsOf(rows[..i], orderId)
      {
        assert rows[..i + 1][..i] == rows[..i];
        if rows[i].orderId == orderId {
          r := r + [rows[i]];
        }
      }
      assert rows[..|rows|] == rows;
    }
  }
}
