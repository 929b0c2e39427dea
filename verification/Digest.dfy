/** The texts that services/gate/rules.py hashes, and when they tell their inputs apart. The gate model
    keys a decision on the events themselves; here the text the digest absorbs is spelled out. */
module Digest {
  import opened Common
  import opened Events
  import opened Claims
  import opened Gate
  import opened SmallStreams

  /** The texts of the event types. */
  function TypeName(t: EventType): string {
    match t
    case PaymentFailed => "payment.failed"
    case PaymentAuthorized => "payment.authorized"
    case PaymentCaptured => "payment.captured"
    case RefundProcessed => "refund.processed"
    case RefundFailed => "refund.failed"
    case OrderPaid => "order.paid"
    case SettlementProcessed => "settlement.processed"
    case OtherEvent(name) => name
  }

  function DigitOf(d: nat): char
    requires d < 10
    ensures IsDigit(DigitOf(d))
  {
    '0' + d as char
  }

  /** Decimal text without leading zeros. */
  function Decimal(n: nat): (s: string)
    ensures s != "" && AllDigits(s)
  {
    if n < 10 then [DigitOf(n)] else Decimal(n / 10) + [DigitOf(n % 10)]
  }

  function Number(s: string): nat
    requires AllDigits(s)
  {
    if s == "" then 0
    else
      var last := s[|s| - 1];
      assert last in s;
      10 * Number(s[..|s| - 1]) + (last as int - '0' as int)
  }

  lemma {:induction false} NumberOfDecimal(n: nat)
    ensures Number(Decimal(n)) == n
  {
    if n >= 10 {
      NumberOfDecimal(n / 10);
      assert Decimal(n)[..|Decimal(n)| - 1] == Decimal(n / 10);
    } else {
      assert Decimal(n)[..0] == "";
    }
  }

  /** Python's decimal text of an integer. */
  function IntText(n: int): string { if n < 0 then "-" + Decimal(-n) else Decimal(n) }

  type Event = (string, EventType, int)

  /** One event as the digest absorbs it. */
  function EventText(e: Event): string {
    e.0 + ":" + TypeName(e.1) + ":" + IntText(e.2)
  }

  /** All events, one after the other with nothing between them. */
  function VersionText(events: Version): string {
    if events == [] then "" else EventText(events[0]) + VersionText(events[1..])
  }

  lemma {:induction false} TextGrows(events: Version, e: Event)
    ensures VersionText(events + [e]) == VersionText(events) + EventText(e)
  {
    var grown := events + [e];
    if events == [] {
      assert grown == [e] && grown[1..] == [];
    } else {
      TextGrows(events[1..], e);
      assert grown[1..] == events[1..] + [e] && grown[0] == events[0];
      Associative(EventText(events[0]), VersionText(events[1..]), EventText(e));
    }
  }

  /** The hash loop: what it has absorbed is the text of the events so far. */
  method Absorb(events: Version) returns (text: string)
    ensures text == VersionText(events)
  {
    text := "";
    for i := 0 to |events|
      invariant text == VersionText(events[..i])
    {
      TextGrows(events[..i], events[i]);
      assert events[..i + 1] == events[..i] + [events[i]];
      text := text + EventText(events[i]);
    }
    assert events[..|events|] == events;
  }

  // ------------------------------------------------------------------------ injectivity

  predicate KnownName(name: string) {
    name in {"payment.failed", "payment.authorized", "payment.captured", "refund.processed", "refund.failed",
             "order.paid", "settlement.processed"}
  }

  /** Texts without a colon, and an event type that is written one way only. */
  predicate Clean(e: Event) {
    ':' !in e.0 && ':' !in TypeName(e.1) && (e.1.OtherEvent? ==> !KnownName(e.1.name))
  }

  /** A clean event whose id starts with no digit. */
  predicate Separable(e: Event) { Clean(e) && e.0 != "" && !IsDigit(e.0[0]) }

  /** A clean event whose time has this many digits, as all times from 2001 to 2286 have ten. */
  predicate OfLength(e: Event, digits: nat) { Clean(e) && e.2 >= 0 && |Decimal(e.2)| == digits }

  lemma TypeNameTellsApart(t: EventType, u: EventType)
    requires TypeName(t) == TypeName(u)
    requires t.OtherEvent? ==> !KnownName(t.name)
    requires u.OtherEvent? ==> !KnownName(u.name)
    ensures t == u
  {
    assert "payment.captured"[0] != "refund.processed"[0];
    assert |"payment.failed"| == 14 && |"payment.authorized"| == 18 && |"payment.captured"| == 16;
    assert |"refund.processed"| == 16 && |"refund.failed"| == 13 && |"order.paid"| == 10
           && |"settlement.processed"| == 20;
  }

  /** Index of the first c, or the length of the text. */
  function FirstIndex(text: string, c: char): nat {
    if text == "" || text[0] == c then 0 else 1 + FirstIndex(text[1..], c)
  }

  lemma {:induction false} FirstIndexAfter(x: string, c: char, u: string)
    requires c !in x
    ensures FirstIndex(x + [c] + u, c) == |x|
  {
    if x != "" {
      FirstIndexAfter(x[1..], c, u);
      assert (x + [c] + u)[1..] == x[1..] + [c] + u;
    }
  }

  /** The text up to the first separator is determined, and so is the rest. */
  lemma SplitAt(x: string, u: string, y: string, v: string, c: char)
    requires x + [c] + u == y + [c] + v && c !in x && c !in y
    ensures x == y && u == v
  {
    FirstIndexAfter(x, c, u);
    FirstIndexAfter(y, c, v);
    SameSplit(x, u, y, v, c);
  }

  lemma SameSplit(x: string, u: string, y: string, v: string, c: char)
    requires x + [c] + u == y + [c] + v && |x| == |y|
    ensures x == y && u == v
  {
    var text := x + [c] + u;
    assert text[..|x|] == x && text[..|y|] == y;
    assert text[|x| + 1..] == u && text[|y| + 1..] == v;
  }

  /** Digits up to the first character that is none are determined, and so is the rest. */
  lemma SplitDigits(x: string, u: string, y: string, v: string)
    requires x + u == y + v && AllDigits(x) && AllDigits(y)
    requires (u == "" || !IsDigit(u[0])) && (v == "" || !IsDigit(v[0]))
    ensures x == y && u == v
  {
    RunOfDigits(x, u);
    RunOfDigits(y, v);
    var text := x + u;
    assert text[..|x|] == x && text[..|y|] == y;
    assert text[|x|..] == u && text[|y|..] == v;
  }

  lemma SplitNat(m: nat, u: string, n: nat, v: string)
    requires Decimal(m) + u == Decimal(n) + v
    requires (u == "" || !IsDigit(u[0])) && (v == "" || !IsDigit(v[0]))
    ensures m == n && u == v
  {
    SplitDigits(Decimal(m), u, Decimal(n), v);
    NumberOfDecimal(m);
    NumberOfDecimal(n);
  }

  lemma SplitInt(m: int, u: string, n: int, v: string)
    requires IntText(m) + u == IntText(n) + v
    requires (u == "" || !IsDigit(u[0])) && (v == "" || !IsDigit(v[0]))
    ensures m == n && u == v
  {
    SignFirst(m, u);
    SignFirst(n, v);
    if m < 0 {
      SplitNat(-m, u, -n, v);
    } else {
      SplitNat(m, u, n, v);
    }
  }

  lemma SignFirst(n: int, u: string)
    ensures (IntText(n) + u)[0] == '-' <==> n < 0
    ensures n < 0 ==> (IntText(n) + u)[1..] == Decimal(-n) + u
  {
    if n >= 0 {
      var d := Decimal(n);
      assert d[0] in d;
    }
  }

  /** What follows the id, and what follows the type. */
  function AfterId(e: Event, u: string): string { TypeName(e.1) + [':'] + AfterType(e, u) }

  function AfterType(e: Event, u: string): string { IntText(e.2) + u }

  lemma EventTextParts(e: Event, u: string)
    ensures EventText(e) + u == e.0 + [':'] + AfterId(e, u)
  {
  }

  lemma HeadTold(e: Event, u: string, f: Event, v: string)
    requires Clean(e) && Clean(f) && EventText(e) + u == EventText(f) + v
    ensures e.0 == f.0 && e.1 == f.1 && IntText(e.2) + u == IntText(f.2) + v
  {
    EventTextParts(e, u);
    EventTextParts(f, v);
    SplitAt(e.0, AfterId(e, u), f.0, AfterId(f, v), ':');
    SplitAt(TypeName(e.1), AfterType(e, u), TypeName(f.1), AfterType(f, v), ':');
    TypeNameTellsApart(e.1, f.1);
  }

  // -------------------------------------------------------- ids that run together

  /** x is y with digits in front. */
  predicate DigitsInFront(x: string, y: string) {
    |y| < |x| && x[|x| - |y|..] == y && AllDigits(x[..|x| - |y|])
  }

  /** Two ids that cannot be told apart behind the time of the event before them. When no id comes twice,
      that event has a third id. */
  ghost predicate RunTogether(ids: iset<string>, once: bool) {
    exists x, y, z :: x in ids && y in ids && z in ids && DigitsInFront(x, y) && (once ==> z != x && z != y)
  }

  /** Clean events with ids of this set, each id once if that is asked. */
  ghost predicate EventsOver(events: Version, ids: iset<string>, once: bool) {
    && (forall i :: 0 <= i < |events| ==> Clean(events[i]) && events[i].0 in ids)
    && (once ==> forall i, j :: 0 <= i < j < |events| ==> events[i].0 != events[j].0)
  }

  ghost predicate StreamOver(obs: seq<Observation>, ids: iset<string>, once: bool) {
    && (forall o :: o in obs ==> Clean(EventTriple(o)) && o.eventId in ids)
    && (once ==> EachIdOnce(obs))
  }

  ghost predicate EachIdOnce(obs: seq<Observation>) {
    forall i, j :: 0 <= i < j < |obs| ==> obs[i].eventId != obs[j].eventId
  }

  lemma IntTextTells(m: int, n: int)
    requires IntText(m) == IntText(n)
    ensures m == n
  {
    assert IntText(m) + "" == IntText(n) + "";
    SplitInt(m, "", n, "");
  }

  /** When the times before two ids have texts of different lengths, one id is the other with digits in front. */
  lemma LongerTime(m: int, x: string, n: int, y: string)
    requires IntText(m) + x == IntText(n) + y && |IntText(m)| < |IntText(n)|
    ensures DigitsInFront(x, y)
  {
    var s, t := IntText(m), IntText(n);
    assert (s + x)[|s|..] == x && (t + y)[|s|..] == t[|s|..] + y;
    assert x == t[|s|..] + y;
    assert x[..|x| - |y|] == t[|s|..] && x[|x| - |y|..] == y;
    assert forall c :: c in t[1..] ==> IsDigit(c);
    assert forall c :: c in t[|s|..] ==> c in t[1..];
  }

  lemma NextIdTold(m: int, x: string, n: int, y: string)
    requires IntText(m) + x == IntText(n) + y && !DigitsInFront(x, y) && !DigitsInFront(y, x)
    ensures m == n && x == y
  {
    if |IntText(m)| < |IntText(n)| {
      LongerTime(m, x, n, y);
    } else if |IntText(n)| < |IntText(m)| {
      LongerTime(n, y, m, x);
    } else {
      var s, t := IntText(m), IntText(n);
      assert (s + x)[..|s|] == s && (t + y)[..|t|] == t && (s + x)[|s|..] == x && (t + y)[|t|..] == y;
      IntTextTells(m, n);
    }
  }

  lemma NoColonInTime(n: int)
    ensures ':' !in IntText(n)
  {
  }

  /** A version that is not empty has a colon in its text, behind its first id. */
  lemma TextOfVersion(events: Version)
    requires events != []
    ensures VersionText(events) == events[0].0 + [':'] + AfterId(events[0], VersionText(events[1..]))
    ensures ':' in VersionText(events)
  {
    EventTextParts(events[0], VersionText(events[1..]));
    assert VersionText(events)[|events[0].0|] == ':';
  }

  lemma EmptyText(events: Version)
    ensures VersionText(events) == "" <==> events == []
  {
    if events != [] {
      TextOfVersion(events);
    }
  }

  /** The time before two versions is told, and so are their texts, unless their first ids run together. */
  lemma TimeTold(m: int, a: Version, n: int, b: Version)
    requires IntText(m) + VersionText(a) == IntText(n) + VersionText(b)
    requires a != [] ==> ':' !in a[0].0
    requires b != [] ==> ':' !in b[0].0
    requires a != [] && b != [] ==> !DigitsInFront(a[0].0, b[0].0) && !DigitsInFront(b[0].0, a[0].0)
    ensures m == n && VersionText(a) == VersionText(b)
  {
    NoColonInTime(m);
    NoColonInTime(n);
    if a != [] { TextOfVersion(a); }
    if b != [] { TextOfVersion(b); }
    assert ':' in IntText(m) + VersionText(a) <==> a != [];
    assert ':' in IntText(n) + VersionText(b) <==> b != [];
    if a == [] {
      assert IntText(m) + "" == IntText(m) && IntText(n) + "" == IntText(n);
      IntTextTells(m, n);
    } else {
      HeadsTold(m, a, n, b);
    }
  }

  lemma SplitBehind(s: string, x: string, u: string, t: string, y: string, v: string, c: char)
    requires s + (x + [c] + u) == t + (y + [c] + v) && c !in s && c !in x && c !in t && c !in y
    ensures s + x == t + y && u == v
  {
    assert s + (x + [c] + u) == (s + x) + [c] + u;
    assert t + (y + [c] + v) == (t + y) + [c] + v;
    SplitAt(s + x, u, t + y, v, c);
  }

  lemma HeadsTold(m: int, a: Version, n: int, b: Version)
    requires a != [] && b != [] && IntText(m) + VersionText(a) == IntText(n) + VersionText(b)
    requires ':' !in a[0].0 && ':' !in b[0].0
    requires !DigitsInFront(a[0].0, b[0].0) && !DigitsInFront(b[0].0, a[0].0)
    ensures m == n && VersionText(a) == VersionText(b)
  {
    NoColonInTime(m);
    NoColonInTime(n);
    TextOfVersion(a);
    TextOfVersion(b);
    SplitBehind(IntText(m), a[0].0, AfterId(a[0], VersionText(a[1..])),
                IntText(n), b[0].0, AfterId(b[0], VersionText(b[1..])), ':');
    NextIdTold(m, a[0].0, n, b[0].0);
  }

  /** The text of a version determines its events, in order, unless two ids run together. */
  lemma {:induction false} TextTellsVersions(a: Version, b: Version, ids: iset<string>, once: bool)
    requires EventsOver(a, ids, once) && EventsOver(b, ids, once) && !RunTogether(ids, once)
    requires VersionText(a) == VersionText(b)
    ensures a == b
    decreases |a|
  {
    EmptyText(a);
    EmptyText(b);
    if a != [] {
      FirstEventTold(a, b, ids, once);
      TailOver(a, ids, once);
      TailOver(b, ids, once);
      TextTellsVersions(a[1..], b[1..], ids, once);
      assert a == [a[0]] + a[1..] && b == [b[0]] + b[1..];
    }
  }

  lemma TailOver(events: Version, ids: iset<string>, once: bool)
    requires events != [] && EventsOver(events, ids, once)
    ensures EventsOver(events[1..], ids, once)
  {
  }

  lemma FirstEventTold(a: Version, b: Version, ids: iset<string>, once: bool)
    requires EventsOver(a, ids, once) && EventsOver(b, ids, once) && !RunTogether(ids, once)
    requires a != [] && b != [] && VersionText(a) == VersionText(b)
    ensures a[0] == b[0] && VersionText(a[1..]) == VersionText(b[1..])
  {
    var x, y := a[1..], b[1..];
    HeadTold(a[0], VersionText(x), b[0], VersionText(y));
    assert x != [] ==> x[0] == a[1];
    assert y != [] ==> y[0] == b[1];
    TimeTold(a[0].2, x, b[0].2, y);
  }

  lemma StartsWithDigit(x: string, y: string)
    requires DigitsInFront(x, y)
    ensures IsDigit(x[0])
  {
    assert x[..|x| - |y|][0] == x[0];
  }

  /** So it does when no event id starts with a digit and no text contains a colon. */
  lemma VersionTellsEventsApart(a: Version, b: Version)
    requires (forall e :: e in a || e in b ==> Separable(e)) && VersionText(a) == VersionText(b)
    ensures a == b
  {
    var ids := iset id: string | id != "" && !IsDigit(id[0]);
    forall x, y | x in ids ensures !DigitsInFront(x, y) {
      if DigitsInFront(x, y) {
        StartsWithDigit(x, y);
        assert false;
      }
    }
    assert forall i :: 0 <= i < |a| ==> a[i] in a;
    assert forall i :: 0 <= i < |b| ==> b[i] in b;
    TextTellsVersions(a, b, ids, false);
  }

  lemma SplitLength(m: nat, u: string, n: nat, v: string)
    requires Decimal(m) + u == Decimal(n) + v && |Decimal(m)| == |Decimal(n)|
    ensures m == n && u == v
  {
    var x, y := Decimal(m), Decimal(n);
    assert (x + u)[..|x|] == x && (y + v)[..|y|] == y && (x + u)[|x|..] == u && (y + v)[|y|..] == v;
    NumberOfDecimal(m);
    NumberOfDecimal(n);
  }

  /** Or when all times have the same number of digits, whatever the ids start with. */
  lemma {:induction false} EqualLengthsTellEventsApart(a: Version, b: Version, digits: nat)
    requires forall e :: e in a || e in b ==> OfLength(e, digits)
    requires VersionText(a) == VersionText(b)
    ensures a == b
    decreases |a|
  {
    if a != [] && b != [] {
      var x, y := a[1..], b[1..];
      assert a == [a[0]] + x && b == [b[0]] + y;
      assert a[0] in a && b[0] in b;
      HeadTold(a[0], VersionText(x), b[0], VersionText(y));
      SplitLength(a[0].2, VersionText(x), b[0].2, VersionText(y));
      EqualLengthsTellEventsApart(x, y, digits);
    }
  }

  lemma InsertKeepsOnce(o: Observation, s: seq<Observation>)
    requires EachIdOnce(s) && forall p :: p in s ==> p.eventId != o.eventId
    ensures EachIdOnce(Insert(o, s)) && forall p :: p in Insert(o, s) ==> p == o || p in s
  {
    if s != [] {
      assert s == [s[0]] + s[1..] && forall p :: p in s[1..] ==> p in s;
      InsertKeepsOnce(o, s[1..]);
      assert forall p :: p in s[1..] ==> p.eventId != s[0].eventId;
    }
  }

  lemma CanonicalKeepsOnce(obs: seq<Observation>)
    requires EachIdOnce(obs)
    ensures EachIdOnce(CanonicalOrder(obs))
  {
    if obs != [] {
      CanonicalKeepsOnce(obs[1..]);
      CanonicalOrderElements(obs[1..]);
      InsertKeepsOnce(obs[0], CanonicalOrder(obs[1..]));
    }
  }

  lemma VersionOver(obs: seq<Observation>, ids: iset<string>, once: bool)
    requires StreamOver(obs, ids, once)
    ensures EventsOver(EvidenceVersion(obs), ids, once)
  {
    var c := CanonicalOrder(obs);
    CanonicalOrderElements(obs);
    if once {
      CanonicalKeepsOnce(obs);
    }
    forall o | o in c ensures Clean(EventTriple(o)) && o.eventId in ids {
      assert o in obs;
    }
    EachTripleOver(c, ids, once);
  }

  lemma EachTripleOver(obs: seq<Observation>, ids: iset<string>, once: bool)
    requires StreamOver(obs, ids, once)
    ensures EventsOver(Triples(obs), ids, once)
  {
    forall i | 0 <= i < |obs| ensures Clean(Triples(obs)[i]) && Triples(obs)[i].0 in ids {
      assert obs[i] in obs;
    }
  }

  /** So the gate's version of a stream and the text that is hashed agree on which streams differ: on clean
      streams whose ids do not run together, or whose times have all the same number of digits. */
  lemma VersionIsItsText(a: seq<Observation>, b: seq<Observation>, ids: iset<string>, once: bool, digits: nat)
    requires (StreamOver(a, ids, once) && StreamOver(b, ids, once) && !RunTogether(ids, once))
             || (forall o :: o in a || o in b ==> OfLength(EventTriple(o), digits))
    ensures VersionText(EvidenceVersion(a)) == VersionText(EvidenceVersion(b))
            <==> EvidenceVersion(a) == EvidenceVersion(b)
  {
    var x, y := EvidenceVersion(a), EvidenceVersion(b);
    if VersionText(x) == VersionText(y) {
      if StreamOver(a, ids, once) && StreamOver(b, ids, once) && !RunTogether(ids, once) {
        VersionOver(a, ids, once);
        VersionOver(b, ids, once);
        TextTellsVersions(x, y, ids, once);
      } else {
        TriplesOfMembers(a);
        TriplesOfMembers(b);
        EqualLengthsTellEventsApart(x, y, digits);
      }
    }
  }

  /** The number written as that of n and these digits behind it. */
  function WithDigits(n: nat, digits: string): (m: nat)
    requires AllDigits(digits) && n > 0
    ensures m >= n && (digits != "" ==> m > n)
  {
    if digits == "" then n
    else
      var last := digits[|digits| - 1];
      assert last in digits;
      10 * WithDigits(n, digits[..|digits| - 1]) + (last as int - '0' as int)
  }

  lemma {:induction false} DecimalWithDigits(n: nat, digits: string)
    requires AllDigits(digits) && n > 0
    ensures Decimal(WithDigits(n, digits)) == Decimal(n) + digits
  {
    if digits != "" {
      var front, last := digits[..|digits| - 1], digits[|digits| - 1];
      assert last in digits && digits == front + [last];
      DecimalWithDigits(n, front);
      assert DigitOf(last as int - '0' as int) == last;
    } else {
      assert Decimal(n) + digits == Decimal(n);
    }
  }

  function FailureAt(eventId: string, at: int): Observation {
    PlainEvent(eventId, PaymentFailed, "pay_A", at, Network, OtherStep, OtherReason(""))
  }

  /** What stands between an id and a time. */
  function Mark(): string { ":" + TypeName(PaymentFailed) + ":" }

  lemma MiddleJoined(a: string, b: string, c: string, d: string, e: string)
    ensures a + b + c + d + e == a + (b + c + d) + e
  {
  }

  lemma Rejoined(z: string, mark: string, s: string, x: string, t: string)
    ensures (z + mark + s) + (x + mark + t) == z + mark + (s + x) + (mark + t)
  {
  }

  lemma FailureText(eventId: string, at: int)
    ensures EventText((eventId, PaymentFailed, at)) == eventId + Mark() + IntText(at)
  {
    MiddleJoined(eventId, ":", TypeName(PaymentFailed), ":", IntText(at));
  }

  /** What two failures hash to. */
  lemma TwoFailuresText(before: string, at: int, eventId: string, later: int)
    requires at < later
    ensures var version := EvidenceVersion([FailureAt(before, at), FailureAt(eventId, later)]);
            && version == [(before, PaymentFailed, at), (eventId, PaymentFailed, later)]
            && VersionText(version) == before + Mark() + (IntText(at) + eventId) + (Mark() + IntText(later))
  {
    var e: Event, f: Event := (before, PaymentFailed, at), (eventId, PaymentFailed, later);
    TwoEventOrder(FailureAt(before, at), FailureAt(eventId, later));
    assert EvidenceVersion([FailureAt(before, at), FailureAt(eventId, later)]) == [e, f];
    TwoTexts(e, f);
    FailureText(before, at);
    FailureText(eventId, later);
    Rejoined(before, Mark(), IntText(at), eventId, IntText(later));
  }

  /** Behind the event of any third id, two ids that run together hash alike. */
  lemma IdsCollide(x: string, y: string, z: string) returns (at: int, later: int)
    requires DigitsInFront(x, y)
    ensures 1 < at < later
    ensures VersionText(EvidenceVersion([FailureAt(z, 1), FailureAt(x, later)]))
            == VersionText(EvidenceVersion([FailureAt(z, at), FailureAt(y, later)]))
  {
    var digits := x[..|x| - |y|];
    at := WithDigits(1, digits);
    later := at + 1;
    DecimalWithDigits(1, digits);
    assert x == digits + y;
    TwoFailuresText(z, 1, x, later);
    TwoFailuresText(z, at, y, later);
    Associative(IntText(1), digits, y);
  }

  lemma FailuresOver(z: string, at: int, x: string, later: int, ids: iset<string>, once: bool)
    requires z in ids && x in ids && ':' !in z && ':' !in x && (once ==> z != x)
    ensures StreamOver([FailureAt(z, at), FailureAt(x, later)], ids, once)
  {
  }

  /** Exactly which ids the text tells apart: on clean streams over a set of ids without colons, two streams
      that differ have different texts if and only if no two of the ids run together. */
  lemma TextTellsStreamsIff(ids: iset<string>, once: bool)
    requires forall id :: id in ids ==> ':' !in id
    ensures (forall a, b :: StreamOver(a, ids, once) && StreamOver(b, ids, once)
                            && VersionText(EvidenceVersion(a)) == VersionText(EvidenceVersion(b))
                            ==> EvidenceVersion(a) == EvidenceVersion(b))
            <==> !RunTogether(ids, once)
  {
    if RunTogether(ids, once) {
      var x, y, z :| x in ids && y in ids && z in ids && DigitsInFront(x, y) && (once ==> z != x && z != y);
      var at, later := IdsCollide(x, y, z);
      FailuresOver(z, 1, x, later, ids, once);
      FailuresOver(z, at, y, later, ids, once);
      TwoFailuresText(z, 1, x, later);
      TwoFailuresText(z, at, y, later);
    } else {
      forall a, b | StreamOver(a, ids, once) && StreamOver(b, ids, once)
                    && VersionText(EvidenceVersion(a)) == VersionText(EvidenceVersion(b))
        ensures EvidenceVersion(a) == EvidenceVersion(b)
      {
        VersionIsItsText(a, b, ids, once, 0);
      }
    }
  }

  lemma TriplesOfMembers(obs: seq<Observation>)
    ensures forall e :: e in EvidenceVersion(obs) ==> exists o :: o in obs && EventTriple(o) == e
  {
    CanonicalOrderElements(obs);
    var c := CanonicalOrder(obs);
    forall e | e in EvidenceVersion(obs) ensures exists o :: o in obs && EventTriple(o) == e {
      var i :| 0 <= i < |c| && Triples(c)[i] == e;
      assert c[i] in c;
    }
  }

  /** New evidence makes a new key: decisions share their key only on the same action and the same events. */
  lemma SameKeySameEvents(a: seq<Observation>, b: seq<Observation>, i: RecoveryIntent, j: RecoveryIntent)
    requires IdempotencyKey(i.(evidenceVersion := Some(EvidenceVersion(a))), a)
          == IdempotencyKey(j.(evidenceVersion := Some(EvidenceVersion(b))), b)
    ensures i.action == j.action
    ensures forall o :: o in a ==> exists p :: p in b && EventTriple(p) == EventTriple(o)
    ensures |a| == |b|
  {
    SameVersionSameEvents(a, b);
  }

  lemma SameVersionSameEvents(a: seq<Observation>, b: seq<Observation>)
    requires EvidenceVersion(a) == EvidenceVersion(b)
    ensures |a| == |b| && forall o :: o in a ==> exists p :: p in b && EventTriple(p) == EventTriple(o)
  {
    CanonicalOrderElements(a);
    TriplesOfMembers(b);
    CanonicalOrderSorts(a);
    CanonicalOrderSorts(b);
    assert |EvidenceVersion(a)| == |CanonicalOrder(a)| && |EvidenceVersion(b)| == |CanonicalOrder(b)|;
    forall o | o in a ensures exists p :: p in b && EventTriple(p) == EventTriple(o) {
      TripleOfMember(a, o);
    }
  }

  lemma TripleOfMember(obs: seq<Observation>, o: Observation)
    requires o in CanonicalOrder(obs)
    ensures EventTriple(o) in EvidenceVersion(obs)
  {
    var c := CanonicalOrder(obs);
    var k :| 0 <= k < |c| && c[k] == o;
    assert Triples(c)[k] == EventTriple(o);
  }

  /** Nothing separates an event from the next, so a digit at the start of an id reads as the last digit of
      the time before it: two events of which the later is more than ten times later, and whose id starts
      with a digit, share their text with two other events, and both pairs are in canonical order. */
  lemma DigitsRunTogether(before: Event, d: nat, rest: string, t: EventType, at: int)
    requires 0 < before.2 && d < 10 && 10 * before.2 + d < at
    ensures var later := ([DigitOf(d)] + rest, t, at);
            var merged := (before.0, before.1, 10 * before.2 + d);
            && VersionText([before, later]) == VersionText([merged, (rest, t, at)])
            && before.2 < at && merged.2 < at && [before, later] != [merged, (rest, t, at)]
  {
    var later, merged, tail := ([DigitOf(d)] + rest, t, at), (before.0, before.1, 10 * before.2 + d), (rest, t, at);
    assert Decimal(10 * before.2 + d) == Decimal(before.2) + [DigitOf(d)];
    assert EventText(later) == [DigitOf(d)] + EventText(tail);
    assert EventText(merged) == EventText(before) + [DigitOf(d)];
    TwoTexts(before, later);
    TwoTexts(merged, tail);
    assert [before, later][0].2 != [merged, tail][0].2;
  }

  /** Texts without a colon are needed as well: a colon in an id or in an event type moves the line
      between the two. */
  lemma ColonsRunTogether(a: string, b: string, c: string, at: int)
    ensures VersionText([(a + ":" + b, OtherEvent(c), at)]) == VersionText([(a, OtherEvent(b + ":" + c), at)])
  {
    assert (a + ":" + b) + ":" + c + ":" + IntText(at) == a + ":" + (b + ":" + c) + ":" + IntText(at);
    var x: Event, y: Event := (a + ":" + b, OtherEvent(c), at), (a, OtherEvent(b + ":" + c), at);
    assert [x][1..] == [] && [y][1..] == [];
    assert EventText(x) == EventText(y);
  }

  lemma TwoTexts(e: Event, f: Event)
    ensures VersionText([e, f]) == EventText(e) + EventText(f)
  {
    assert [e, f][1..] == [f] && [f][1..] == [];
    assert VersionText([f]) == EventText(f) + "" == EventText(f);
  }

  /** What the idempotency key hashes. */
  function KeyText(paymentId: string, action: string, version: string): string {
    paymentId + "|" + action + "|" + version
  }

  /** The key's text tells payments, actions and versions apart, whatever a payment's id contains, as
      long as the version is the digest's own hexadecimal. */
  lemma KeyTellsApart(p: string, a: string, v: string, q: string, b: string, w: string)
    requires KeyText(p, a, v) == KeyText(q, b, w)
    requires '|' !in a && '|' !in v && '|' !in b && '|' !in w
    ensures p == q && a == b && v == w
  {
    SplitFromEnd(p + "|" + a, v, q + "|" + b, w, '|');
    assert p + "|" + a == p + ['|'] + a && q + "|" + b == q + ['|'] + b;
    SplitFromEnd(p, a, q, b, '|');
  }

  /** Index of the last c, or zero. */
  function LastIndex(text: string, c: char): nat {
    if text == "" then 0 else if text[|text| - 1] == c then |text| - 1 else LastIndex(text[..|text| - 1], c)
  }

  lemma {:induction false} LastIndexBefore(x: string, c: char, u: string)
    requires c !in u
    ensures LastIndex(x + [c] + u, c) == |x|
    decreases |u|
  {
    var text := x + [c] + u;
    if u == "" {
      assert text[|text| - 1] == c;
    } else {
      LastIndexBefore(x, c, u[..|u| - 1]);
      assert text[..|text| - 1] == x + [c] + u[..|u| - 1];
    }
  }

  lemma SplitFromEnd(x: string, u: string, y: string, v: string, c: char)
    requires x + [c] + u == y + [c] + v && c !in u && c !in v
    ensures x == y && u == v
  {
    LastIndexBefore(x, c, u);
    LastIndexBefore(y, c, v);
    SameSplit(x, u, y, v, c);
  }
}
