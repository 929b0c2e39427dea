/** Ingress: the dedupe claim of core/infra.py and the claim, append, publish of
    services/ingress/main.py. Requests interleave between the claim and the append. */
module Ingress {
  import opened Banking
  import opened Common
  import opened Events
  import opened Verdicts
  import opened Fold
  import opened FoldTheorems
  import opened SmallStreams

  const DEDUPE_TTL := 7 * 86_400

  /** `claim` succeeds unless an earlier claim is still alive. */
  predicate Claimable(seen: map<string, int>, key: string, now: int) {
    key !in seen || seen[key] <= now
  }

  class InMemoryDedupe {
    var seen: map<string, int>

    constructor ()
      ensures seen == map[]
    {
      seen := map[];
    }

    method Claim(key: string, now: int) returns (won: bool)
      modifies this
      ensures won <==> Claimable(old(seen), key, now)
      ensures seen == if won then old(seen)[key := now + DEDUPE_TTL] else old(seen)
    {
      if key in seen && seen[key] > now {
        return false;
      }
      seen := seen[key := now + DEDUPE_TTL];
      return true;
    }
  }

  /** A request body: nothing `parse_webhook` understands, or an observation, whose time is the
      provider's when the body carries one. */
  datatype Body = Unparseable | Parsed(observation: Observation, timed: bool)

  datatype Delivery = Delivery(signed: bool, eventId: Option<string>, body: Body)

  /** The observation of a body under an event id, received at `now`. */
  function Stamp(body: Body, eventId: string, now: int): Observation
    requires body.Parsed?
  {
    body.observation.(eventId := eventId, receivedAt := now,
                      eventTime := if body.timed then body.observation.eventTime else now)
  }

  /** The process: claims, rows, requests between claim and append, and the bus keys published. */
  datatype State = State(
    seen: map<string, int>,
    rows: seq<Observation>,
    pending: seq<Observation>,
    published: seq<string>,
    received: nat,
    duplicates: nat,
    rejected: nat,
    maxSkew: int)

  const EMPTY := State(map[], [], [], [], 0, 0, 0, 0)

  /** How long after it happened an event was received; negative when a clock is wrong. */
  function Skew(o: Observation): int { o.receivedAt - o.eventTime }

  function GreaterSkew(skew: int, o: Observation): int { if skew < Skew(o) then Skew(o) else skew }

  predicate Stores(body: Body) { body.Parsed? && body.observation.orderId != "" }

  /** A request up to the append. */
  function Arrived(s: State, d: Delivery, now: int): State {
    if !d.signed || !Truthy(d.eventId) then s.(rejected := s.rejected + 1)
    else
      var id := d.eventId.value;
      if !Claimable(s.seen, id, now) then s.(duplicates := s.duplicates + 1)
      else
        var claimed := s.(seen := s.seen[id := now + DEDUPE_TTL]);
        if d.body.Unparseable? then claimed.(rejected := s.rejected + 1)
        else if d.body.observation.orderId == "" then claimed.(published := s.published + ["_orphan"])
        else claimed.(pending := s.pending + [Stamp(d.body, id, now)])
  }

  /** The append and the publish of the k-th waiting request. */
  function Completed(s: State, k: nat): State
    requires k < |s.pending|
  {
    var o := s.pending[k];
    s.(pending := s.pending[..k] + s.pending[k + 1..], rows := Appended(s.rows, o),
       received := s.received + 1, maxSkew := GreaterSkew(s.maxSkew, o), published := s.published + [o.orderId])
  }

  class Ingress {
    var dedupe: InMemoryDedupe
    var store: InMemoryStore
    var published: seq<string>
    var received: nat
    var duplicates: nat
    var rejected: nat
    var maxSkew: int

    ghost predicate Valid()
      reads this, store
    {
      store.Valid()
    }

    function View(): State
      reads this, dedupe, store
    {
      State(dedupe.seen, store.rows, [], published, received, duplicates, rejected, maxSkew)
    }

    constructor ()
      ensures Valid() && View() == EMPTY && fresh(dedupe) && fresh(store)
    {
      dedupe := new InMemoryDedupe();
      store := new InMemoryStore();
      published, received, duplicates, rejected, maxSkew := [], 0, 0, 0, 0;
    }

    /** `webhook`, run without interruption. */
    method Webhook(d: Delivery, now: int) returns (status: int)
      requires Valid()
      modifies this, dedupe, store
      ensures Valid() && dedupe == old(dedupe) && store == old(store)
      ensures View() == var arrived := Arrived(old(View()), d, now);
                        if arrived.pending == [] then arrived else Completed(arrived, 0)
      ensures status == if d.signed && Truthy(d.eventId) then 200 else 400
    {
      if !d.signed {
        rejected := rejected + 1;
        return 400;
      }
      if !Truthy(d.eventId) {
        rejected := rejected + 1;
        return 400;
      }
      var won := dedupe.Claim(d.eventId.value, now);
      if !won {
        duplicates := duplicates + 1;
        return 200;
      }
      if d.body.Unparseable? {
        rejected := rejected + 1;
        return 200;
      }
      if d.body.observation.orderId == "" {
        published := published + ["_orphan"];
        return 200;
      }
      var o := Stamp(d.body, d.eventId.value, now);
      var _ := store.Append(o);
      received := received + 1;
      if maxSkew < Skew(o) {
        maxSkew := Skew(o);
      }
      published := published + [d.body.observation.orderId];
      return 200;
    }
  }

  // ------------------------------------------------------------------------- runs

  datatype Event = Arrive(d: Delivery, now: int) | Complete(k: nat)

  ghost predicate IsRun(s: State, events: seq<Event>)
    decreases |events|
  {
    events == [] ||
    (match events[0]
     case Arrive(d, now) => IsRun(Arrived(s, d, now), events[1..])
     case Complete(k) => k < |s.pending| && IsRun(Completed(s, k), events[1..]))
  }

  ghost function After(s: State, events: seq<Event>): State
    requires IsRun(s, events)
    decreases |events|
  {
    if events == [] then s
    else match events[0]
      case Arrive(d, now) => After(Arrived(s, d, now), events[1..])
      case Complete(k) => After(Completed(s, k), events[1..])
  }

  predicate Accepted(d: Delivery) { d.signed && Truthy(d.eventId) }

  /** The accepted deliveries carry the provider's bodies. */
  ghost predicate Carries(events: seq<Event>, bodies: map<string, Body>) {
    forall e :: e in events && e.Arrive? && Accepted(e.d) ==>
      e.d.eventId.value in bodies && e.d.body == bodies[e.d.eventId.value]
  }

  /** Every body that can be stored says when its event happened. */
  predicate Timed(bodies: map<string, Body>) {
    forall id :: id in bodies && id != "" && Stores(bodies[id]) ==> bodies[id].timed
  }

  /** A run of these bodies that has answered every request. */
  ghost predicate Finishes(events: seq<Event>, bodies: map<string, Body>) {
    IsRun(EMPTY, events) && Carries(events, bodies) && After(EMPTY, events).pending == []
  }

  /** The row a body becomes, leaving out when it was received. */
  ghost function RowFor(bodies: map<string, Body>, id: string): Observation
    requires id in bodies && bodies[id].Parsed?
  {
    Stripped(Stamp(bodies[id], id, 0))
  }

  ghost predicate RowIs(bodies: map<string, Body>, id: string, r: Observation) {
    id in bodies && Stores(bodies[id]) && Stripped(r) == RowFor(bodies, id)
  }

  /** What has been claimed is stored or on its way, and nothing else is. */
  ghost predicate Kept(s: State, bodies: map<string, Body>) {
    && UniqueRows(s.rows)
    && (forall id :: id in s.seen && id in bodies && Stores(bodies[id]) ==>
          exists r :: (r in s.rows || r in s.pending) && RowIs(bodies, id, r))
    && (forall r :: r in s.rows || r in s.pending ==> r.eventId in s.seen && RowIs(bodies, r.eventId, r))
  }

  lemma ArriveKeeps(s: State, d: Delivery, now: int, bodies: map<string, Body>)
    requires Kept(s, bodies) && Timed(bodies)
    requires Accepted(d) ==> d.eventId.value in bodies && d.body == bodies[d.eventId.value]
    ensures Kept(Arrived(s, d, now), bodies)
  {
    var t := Arrived(s, d, now);
    if t.pending != s.pending {
      var o := Stamp(d.body, d.eventId.value, now);
      assert RowIs(bodies, d.eventId.value, o) && o in t.pending;
    }
    forall id | id in t.seen && id in bodies && Stores(bodies[id])
      ensures exists r :: (r in t.rows || r in t.pending) && RowIs(bodies, id, r)
    {
      if id in s.seen {
        var r :| (r in s.rows || r in s.pending) && RowIs(bodies, id, r);
        assert r in t.rows || r in t.pending;
      }
    }
  }

  lemma CompleteKeeps(s: State, k: nat, bodies: map<string, Body>)
    requires Kept(s, bodies) && k < |s.pending|
    ensures Kept(Completed(s, k), bodies)
  {
    var t, o := Completed(s, k), s.pending[k];
    AppendedUnique(s.rows, o);
    assert s.pending == s.pending[..k] + [o] + s.pending[k + 1..];
    forall id | id in t.seen && id in bodies && Stores(bodies[id])
      ensures exists r :: (r in t.rows || r in t.pending) && RowIs(bodies, id, r)
    {
      var r :| (r in s.rows || r in s.pending) && RowIs(bodies, id, r);
      if r == o {
        StoredAfterAppend(s.rows, o, bodies, id);
      } else {
        assert r in t.rows || r in t.pending;
      }
    }
  }

  /** Whether the append stored the row or absorbed it, the event has its row. */
  lemma StoredAfterAppend(rows: seq<Observation>, o: Observation, bodies: map<string, Body>, id: string)
    requires RowIs(bodies, id, o) && forall r :: r in rows ==> RowIs(bodies, r.eventId, r)
    ensures exists r :: r in Appended(rows, o) && RowIs(bodies, id, r)
  {
    assert o.eventId == Stripped(o).eventId == id;
    if Appended(rows, o) == rows + [o] {
      assert o in Appended(rows, o);
    }
  }

  lemma {:induction false} RunKeeps(s: State, events: seq<Event>, bodies: map<string, Body>)
    requires IsRun(s, events) && Carries(events, bodies) && Timed(bodies) && Kept(s, bodies)
    ensures Kept(After(s, events), bodies)
    ensures After(s, events).seen.Keys == s.seen.Keys + Delivered(events)
    decreases |events|
  {
    if events != [] {
      assert events[0] in events;
      forall e | e in events[1..] ensures e in events {}
      match events[0]
      case Arrive(d, now) =>
        ArriveKeeps(s, d, now, bodies);
        RunKeeps(Arrived(s, d, now), events[1..], bodies);
      case Complete(k) =>
        CompleteKeeps(s, k, bodies);
        RunKeeps(Completed(s, k), events[1..], bodies);
    }
  }

  /** The ids of the accepted deliveries. */
  ghost function Delivered(events: seq<Event>): set<string> {
    if events == [] then {}
    else
      var first := if events[0].Arrive? && Accepted(events[0].d) then {events[0].d.eventId.value} else {};
      first + Delivered(events[1..])
  }

  /** Once every request is answered the store holds, for each delivered event with an order, one
      row and no other, whatever the deliveries' order, number and times. */
  lemma StoreIsDeterminedByEvents(events: seq<Event>, bodies: map<string, Body>)
    requires Finishes(events, bodies) && Timed(bodies)
    ensures UniqueRows(After(EMPTY, events).rows)
    ensures forall x :: x in StrippedAll(After(EMPTY, events).rows)
                        <==> exists id :: id in Delivered(events) && id in bodies && Stores(bodies[id])
                               && x == RowFor(bodies, id)
  {
    RunKeeps(EMPTY, events, bodies);
    var s := After(EMPTY, events);
    forall x ensures x in StrippedAll(s.rows)
                     <==> exists id :: id in Delivered(events) && id in bodies && Stores(bodies[id])
                            && x == RowFor(bodies, id)
    {
      StrippedMember(s.rows, x);
      if id :| id in Delivered(events) && id in bodies && Stores(bodies[id]) && x == RowFor(bodies, id) {
        var r :| (r in s.rows || r in s.pending) && RowIs(bodies, id, r);
        assert r in s.rows && Stripped(r) == x;
      }
    }
  }

  lemma StrippedMember(s: seq<Observation>, x: Observation)
    ensures x in StrippedAll(s) <==> exists r :: r in s && Stripped(r) == x
  {
    if x in StrippedAll(s) {
      var i :| 0 <= i < |s| && StrippedAll(s)[i] == x;
      assert s[i] in s;
    }
    if r :| r in s && Stripped(r) == x {
      var i :| 0 <= i < |s| && s[i] == r;
      assert StrippedAll(s)[i] == x;
    }
  }

  lemma RowsOfStripped(rows: seq<Observation>, others: seq<Observation>, orderId: string)
    requires SameElements(StrippedAll(rows), StrippedAll(others))
    ensures forall x :: x in StrippedAll(RowsOf(rows, orderId)) ==> x in StrippedAll(RowsOf(others, orderId))
  {
    var mine, theirs := RowsOf(rows, orderId), RowsOf(others, orderId);
    RowsOfElements(rows, orderId);
    RowsOfElements(others, orderId);
    forall x | x in StrippedAll(mine) ensures x in StrippedAll(theirs) {
      StrippedMember(mine, x);
      StrippedMember(rows, x);
      StrippedMember(others, x);
      var r :| r in others && Stripped(r) == x;
      assert r in theirs;
      StrippedMember(theirs, x);
    }
  }

  /** Convergence: two runs that delivered the same events leave stores on which every order folds
      alike, though they received the events at different times. */
  lemma RunsConverge(a: seq<Event>, b: seq<Event>, bodies: map<string, Body>, orderId: string, now: int,
                     evidence: seq<Evidence>, cfg: FoldConfig)
    requires cfg.Valid() && orderId != ""
    requires Timed(bodies) && Finishes(a, bodies) && Finishes(b, bodies) && Delivered(a) == Delivered(b)
    ensures FoldOf(RowsOf(After(EMPTY, a).rows, orderId), now, orderId, evidence, cfg)
         == FoldOf(RowsOf(After(EMPTY, b).rows, orderId), now, orderId, evidence, cfg)
  {
    StoreIsDeterminedByEvents(a, bodies);
    StoreIsDeterminedByEvents(b, bodies);
    var r, s := After(EMPTY, a).rows, After(EMPTY, b).rows;
    RowsOfStripped(r, s, orderId);
    RowsOfStripped(s, r, orderId);
    RowsIdentified(a, bodies, orderId);
    FoldIgnoresDelivery(RowsOf(r, orderId), RowsOf(s, orderId), now, orderId, evidence, cfg);
  }

  lemma RowsIdentified(a: seq<Event>, bodies: map<string, Body>, orderId: string)
    requires IsRun(EMPTY, a) && Carries(a, bodies) && Timed(bodies)
    ensures KeyIdentifies(StrippedAll(RowsOf(After(EMPTY, a).rows, orderId)))
  {
    RunKeeps(EMPTY, a, bodies);
    RowsOfElements(After(EMPTY, a).rows, orderId);
    OwnRowsIdentified(RowsOf(After(EMPTY, a).rows, orderId), bodies);
  }

  lemma OwnRowsIdentified(own: seq<Observation>, bodies: map<string, Body>)
    requires forall r :: r in own ==> RowIs(bodies, r.eventId, r)
    ensures KeyIdentifies(StrippedAll(own))
  {
    forall x, y | x in StrippedAll(own) && y in StrippedAll(own) && SameKey(x, y) ensures x == y {
      var q := StrippedFrom(own, x);
      var r := StrippedFrom(own, y);
      assert RowIs(bodies, q.eventId, q) && RowIs(bodies, r.eventId, r);
    }
  }

  lemma StrippedFrom(s: seq<Observation>, x: Observation) returns (r: Observation)
    requires x in StrippedAll(s)
    ensures r in s && Stripped(r) == x && r.eventId == x.eventId
  {
    var i :| 0 <= i < |s| && StrippedAll(s)[i] == x;
    r := s[i];
  }

  // ------------------------------------------------------------------- untimed bodies

  /** The run of one delivery, answered. */
  function OneDelivery(id: string, body: Body, at: int): seq<Event> {
    [Arrive(Delivery(true, Some(id), body), at), Complete(0)]
  }

  lemma OneDeliveryStores(id: string, body: Body, at: int, bodies: map<string, Body>)
    requires id != "" && id in bodies && bodies[id] == body && Stores(body)
    ensures Finishes(OneDelivery(id, body, at), bodies)
    ensures After(EMPTY, OneDelivery(id, body, at)).rows == [Stamp(body, id, at)]
    ensures Delivered(OneDelivery(id, body, at)) == {id}
  {
    var events := OneDelivery(id, body, at);
    var d := Delivery(true, Some(id), body);
    var o := Stamp(body, id, at);
    var s := Arrived(EMPTY, d, at);
    assert events[1..] == [Complete(0)] && events[1..][1..] == [];
    assert s.pending == [o];
    assert Completed(s, 0).pending == [] && Completed(s, 0).rows == [o];
    assert IsRun(Completed(s, 0), []);
    assert IsRun(s, events[1..]) && After(s, events[1..]) == Completed(s, 0);
    assert Delivered([]) == {} && Delivered([Complete(0)]) == {} by {
      assert [Complete(0)][1..] == [];
    }
  }

  /** Two runs of the same deliveries leave the same stored events, arrival times aside. */
  ghost predicate SameStores(a: seq<Event>, b: seq<Event>)
    requires IsRun(EMPTY, a) && IsRun(EMPTY, b)
  {
    SameElements(StrippedAll(After(EMPTY, a).rows), StrippedAll(After(EMPTY, b).rows))
  }

  lemma UntimedDiverges(bodies: map<string, Body>, id: string)
    requires id in bodies && id != "" && Stores(bodies[id]) && !bodies[id].timed
    ensures var a, b := OneDelivery(id, bodies[id], 0), OneDelivery(id, bodies[id], 1);
            Finishes(a, bodies) && Finishes(b, bodies) && Delivered(a) == Delivered(b) && !SameStores(a, b)
  {
    OneDeliveryStores(id, bodies[id], 0, bodies);
    OneDeliveryStores(id, bodies[id], 1, bodies);
    var r, q := Stamp(bodies[id], id, 0), Stamp(bodies[id], id, 1);
    StrippedMember([r], Stripped(r));
    StrippedMember([q], Stripped(r));
    assert Stripped(r).eventTime != Stripped(q).eventTime;
  }

  /** Exactly when the stores of all runs of a set of bodies converge: when every body that can be stored
      carries its own time. */
  lemma StoresConvergeIffTimed(bodies: map<string, Body>)
    ensures (forall a, b :: Finishes(a, bodies) && Finishes(b, bodies) && Delivered(a) == Delivered(b)
               ==> SameStores(a, b))
            <==> Timed(bodies)
  {
    if Timed(bodies) {
      forall a, b | Finishes(a, bodies) && Finishes(b, bodies) && Delivered(a) == Delivered(b)
        ensures SameStores(a, b)
      {
        StoreIsDeterminedByEvents(a, bodies);
        StoreIsDeterminedByEvents(b, bodies);
      }
    } else {
      var id :| id in bodies && id != "" && Stores(bodies[id]) && !bodies[id].timed;
      UntimedDiverges(bodies, id);
    }
  }

  /** The body of a lost response that does not say when it happened. */
  const UNTIMED_FAILURE: Body :=
    Parsed(PlainEvent("", PaymentFailed, "pay_A", 0, Network, PaymentResponse, OtherReason("timeout")), false)

  lemma FailureJudgedByArrival(at: int, now: int, cfg: FoldConfig)
    requires cfg.Valid()
    ensures var o := Stamp(UNTIMED_FAILURE, "e1", at);
            FoldOf([o], now, "order", [], cfg).verdict
            == if now <= TatDeadline(at, cfg.tatBankingDays, cfg.holidays) then PendingTat else Unresolved
  {
    var o := Stamp(UNTIMED_FAILURE, "e1", at);
    OneEventState(o);
    OneFailureJudged(StateOf([o]), Only(o), now, cfg);
    LostResponseRuling(Only(o), at, now, cfg);
    FoldedPlainly([o], now, "order", cfg);
  }

  lemma LostResponseRuling(p: Payment, at: int, now: int, cfg: FoldConfig)
    requires cfg.Valid() && p.errorSource == Network && p.errorStep == PaymentResponse && p.failedAt == Some(at)
    ensures JudgeFailure(p, now, [], cfg).verdict
            == if now <= TatDeadline(at, cfg.tatBankingDays, cfg.holidays) then PendingTat else Unresolved
  {
  }

  /** On a body without a time even the verdicts diverge: the same delivery, seen by two processes a
      deadline apart, is UNRESOLVED for one and PENDING_TAT for the other at one and the same moment. */
  lemma UntimedVerdictsDiverge(cfg: FoldConfig) returns (a: seq<Event>, b: seq<Event>, now: int)
    requires cfg.Valid()
    ensures var bodies := map["e1" := UNTIMED_FAILURE];
            && Finishes(a, bodies) && Finishes(b, bodies) && Delivered(a) == Delivered(b)
            && FoldOf(RowsOf(After(EMPTY, a).rows, "order"), now, "order", [], cfg).verdict == Unresolved
            && FoldOf(RowsOf(After(EMPTY, b).rows, "order"), now, "order", [], cfg).verdict == PendingTat
  {
    now := TatDeadline(0, cfg.tatBankingDays, cfg.holidays) + 1;
    a, b := OneDelivery("e1", UNTIMED_FAILURE, 0), OneDelivery("e1", UNTIMED_FAILURE, now);
    OneDeliveryStores("e1", UNTIMED_FAILURE, 0, map["e1" := UNTIMED_FAILURE]);
    OneDeliveryStores("e1", UNTIMED_FAILURE, now, map["e1" := UNTIMED_FAILURE]);
    OneRow(Stamp(UNTIMED_FAILURE, "e1", 0));
    OneRow(Stamp(UNTIMED_FAILURE, "e1", now));
    FailureJudgedByArrival(0, now, cfg);
    FailureJudgedByArrival(now, now, cfg);
    DeadlineNeverEarly(now, cfg.tatBankingDays, cfg.holidays);
  }

  lemma OneRow(o: Observation)
    ensures RowsOf([o], o.orderId) == [o]
  {
    assert [o][..0] == [];
  }
}
