/** Customer claims against the identifiers a payment carries: core/claims.py. */
module Claims {
  import opened Common

  datatype CustomerClaim = CustomerClaim(claimsDebited: bool, reference: Option<string>)

  datatype ClaimMatch = Confirms | Contradicts | Unverified | NoMatch

  predicate IsDigit(c: char) { '0' <= c <= '9' }

  predicate AllDigits(s: string) { forall c :: c in s ==> IsDigit(c) }

  /** `normalise_reference`: the digits of a reference, in order. */
  function Digits(s: string): (r: string)
    ensures AllDigits(r)
    ensures AllDigits(s) ==> r == s
  {
    if s == "" then ""
    else if IsDigit(s[0]) then [s[0]] + Digits(s[1..])
    else Digits(s[1..])
  }

  function NormaliseReference(ref: Option<string>): string {
    if ref.Some? then Digits(ref.value) else ""
  }

  const MIN_REFERENCE := 9
  const MAX_REFERENCE := 22

  /** Length of the leading run of digits. */
  function DigitRun(s: string): (n: nat)
    ensures n <= |s| && AllDigits(s[..n])
    ensures n < |s| ==> !IsDigit(s[n])
  {
    if s == "" || !IsDigit(s[0]) then 0
    else
      var n := 1 + DigitRun(s[1..]);
      assert s[..n] == [s[0]] + s[1..][..n - 1];
      n
  }

  /** `references_in`: the non-overlapping greedy matches of nine to twenty-two digits. */
  function ReferencesIn(text: string): (r: seq<string>)
    ensures forall ref :: ref in r ==> AllDigits(ref) && MIN_REFERENCE <= |ref| <= MAX_REFERENCE
    decreases |text|
  {
    if text == "" then []
    else
      var run := DigitRun(text);
      var n := if run < MAX_REFERENCE then run else MAX_REFERENCE;
      if n < MIN_REFERENCE then ReferencesIn(text[1..])
      else [text[..n]] + ReferencesIn(text[n..])
  }

  /** The payment's own references; an identifier without digits gives none. */
  function OurReferences(rrn: Option<string>, upi: Option<string>): set<string> {
    {NormaliseReference(rrn), NormaliseReference(upi)} - {""}
  }

  /** The reference the customer quoted, or one of ours found in their text. */
  function TheirReference(claim: CustomerClaim, ours: set<string>, rawText: string): string {
    var quoted := NormaliseReference(claim.reference);
    if quoted != "" then quoted else FirstOf(ReferencesIn(rawText), ours)
  }

  function FirstOf(candidates: seq<string>, ours: set<string>): (r: string)
    ensures r == "" || r in ours
    ensures "" !in ours ==> (r != "" <==> exists c :: c in candidates && c in ours)
  {
    if candidates == [] then ""
    else if candidates[0] in ours then candidates[0]
    else FirstOf(candidates[1..], ours)
  }

  function AssessClaim(claim: Option<CustomerClaim>, rrn: Option<string>, upi: Option<string>,
                       rawText: string): ClaimMatch {
    if claim.None? || !claim.value.claimsDebited then NoMatch
    else
      var ours := OurReferences(rrn, upi);
      var theirs := TheirReference(claim.value, ours, rawText);
      if theirs == "" || ours == {} then Unverified
      else if theirs in ours then Confirms
      else Contradicts
  }

  /** `assess_claim`. A claim confirms exactly when money is said to have left and the quoted
      digits, or failing any, some reference in the text, are digits this payment carries. */
  method AssessClaimLoop(claim: Option<CustomerClaim>, rrn: Option<string>, upi: Option<string>, rawText: string)
    returns (m: ClaimMatch)
    ensures m == AssessClaim(claim, rrn, upi, rawText)
    ensures m == NoMatch <==> claim.None? || !claim.value.claimsDebited
    ensures m == Confirms <==>
            && claim.Some? && claim.value.claimsDebited
            && var quoted := NormaliseReference(claim.value.reference);
               if quoted != "" then quoted in OurReferences(rrn, upi)
               else exists c :: c in ReferencesIn(rawText) && c in OurReferences(rrn, upi)
    ensures m == Contradicts ==> NormaliseReference(claim.value.reference) !in OurReferences(rrn, upi) + {""}
  {
    if claim.None? || !claim.value.claimsDebited {
      return NoMatch;
    }
    var ours := {NormaliseReference(rrn), NormaliseReference(upi)};
    ours := ours - {""};
    var theirs := NormaliseReference(claim.value.reference);
    if theirs == "" {
      var candidates := ReferencesIn(rawText);
      var i := 0;
      while i < |candidates|
        invariant 0 <= i <= |candidates|
        invariant theirs == ""
        invariant FirstOf(candidates, ours) == FirstOf(candidates[i..], ours)
      {
        if candidates[i] in ours {
          theirs := candidates[i];
          break;
        }
        i := i + 1;
      }
    }
    if theirs == "" || ours == {} {
      return Unverified;
    }
    return if theirs in ours then Confirms else Contradicts;
  }

  lemma {:induction false} RunStopsBefore(a: string, rest: string)
    requires a != "" && !IsDigit(a[|a| - 1])
    ensures DigitRun(a + rest) < |a|
    decreases |a|
  {
    if IsDigit(a[0]) {
      RunStopsBefore(a[1..], rest);
      assert (a + rest)[1..] == a[1..] + rest;
    }
  }

  lemma {:induction false} RunOfDigits(d: string, b: string)
    requires AllDigits(d) && (b == "" || !IsDigit(b[0]))
    ensures DigitRun(d + b) == |d|
  {
    if d != "" {
      assert IsDigit(d[0]);
      RunOfDigits(d[1..], b);
      assert (d + b)[1..] == d[1..] + b;
    } else {
      assert d + b == b;
    }
  }

  /** How far one step of the scan moves on. */
  function ScanStep(text: string): (k: nat)
    requires text != ""
    ensures 0 < k <= |text| && (k == 1 || k <= DigitRun(text))
  {
    var run := DigitRun(text);
    var n := if run < MAX_REFERENCE then run else MAX_REFERENCE;
    if n < MIN_REFERENCE then 1 else n
  }

  lemma ScanGoesOn(text: string, ref: string)
    requires text != "" && ref in ReferencesIn(text[ScanStep(text)..])
    ensures ref in ReferencesIn(text)
  {
  }

  lemma FoundFirst(d: string, b: string)
    requires AllDigits(d) && MIN_REFERENCE <= |d| <= MAX_REFERENCE && (b == "" || !IsDigit(b[0]))
    ensures d in ReferencesIn(d + b)
  {
    RunOfDigits(d, b);
    assert (d + b)[..|d|] == d;
  }

  /** A reference of nine to twenty-two digits that stands alone in a text is always found. */
  lemma {:induction false} StandaloneReferenceFound(a: string, d: string, b: string)
    requires AllDigits(d) && MIN_REFERENCE <= |d| <= MAX_REFERENCE
    requires a == "" || !IsDigit(a[|a| - 1])
    requires b == "" || !IsDigit(b[0])
    ensures d in ReferencesIn(a + d + b)
    decreases |a|
  {
    if a == "" {
      assert a + d + b == d + b;
      FoundFirst(d, b);
    } else {
      var k := ScanWithin(a, d, b);
      StandaloneReferenceFound(a[k..], d, b);
      ScanGoesOn(a + d + b, d);
    }
  }

  /** The scan does not run past the end of what precedes the reference. */
  lemma ScanWithin(a: string, d: string, b: string) returns (k: nat)
    requires a != "" && !IsDigit(a[|a| - 1])
    ensures k == ScanStep(a + d + b) && 0 < k <= |a| && (a + d + b)[k..] == a[k..] + d + b
    ensures a[k..] == "" || !IsDigit(a[k..][|a[k..]| - 1])
  {
    k := ScanStep(a + d + b);
    RunStopsBefore(a, d + b);
    assert a + d + b == a + (d + b);
    if k < |a| {
      assert a[k..][|a[k..]| - 1] == a[|a| - 1];
    }
  }

  /** So an extraction that misses the reference loses nothing: when the text carries the
      payment's RRN as a standalone digit run, the claim still confirms. */
  lemma MissedExtractionStillConfirms(claim: CustomerClaim, rrn: string, upi: Option<string>, a: string, b: string)
    requires claim.claimsDebited && NormaliseReference(claim.reference) == ""
    requires AllDigits(rrn) && MIN_REFERENCE <= |rrn| <= MAX_REFERENCE
    requires (a == "" || !IsDigit(a[|a| - 1])) && (b == "" || !IsDigit(b[0]))
    ensures AssessClaim(Some(claim), Some(rrn), upi, a + rrn + b) == Confirms
  {
    StandaloneReferenceFound(a, rrn, b);
  }
}
