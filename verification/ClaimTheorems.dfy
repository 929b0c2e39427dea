/** What a text yields as references, piece by piece, and when a claim is judged how. */
module ClaimTheorems {
  import opened Common
  import opened Claims

  // --------------------------------------------------------------------------- digits

  /** The digits of a text are those of its parts, and one character gives itself or nothing. */
  lemma {:induction false} DigitsJoin(a: string, b: string)
    ensures Digits(a + b) == Digits(a) + Digits(b)
  {
    if a == "" {
      assert a + b == b;
    } else {
      DigitsJoin(a[1..], b);
      assert (a + b)[1..] == a[1..] + b;
      Associative([a[0]], Digits(a[1..]), Digits(b));
    }
  }

  lemma DigitsOfOne(c: char)
    ensures Digits([c]) == if '0' <= c <= '9' then [c] else ""
  {
    assert [c][1..] == "";
  }

  // ------------------------------------------------------------------------- references

  /** No run of digits crosses from the one text into the other. */
  predicate Bordered(a: string, b: string) {
    a == "" || b == "" || !IsDigit(a[|a| - 1]) || !IsDigit(b[0])
  }

  lemma {:induction false} RunStaysInside(a: string, b: string)
    requires a != "" && Bordered(a, b)
    ensures DigitRun(a + b) == DigitRun(a)
  {
    if !IsDigit(a[0]) {
    } else if |a| == 1 {
      assert (a + b)[1..] == b && a[1..] == "";
    } else {
      RunStaysInside(a[1..], b);
      assert (a + b)[1..] == a[1..] + b;
    }
  }

  lemma ScanTakes(text: string)
    requires text != ""
    ensures var k := ScanStep(text);
            ReferencesIn(text)
            == (if DigitRun(text) >= MIN_REFERENCE then [text[..k]] else []) + ReferencesIn(text[k..])
  {
  }

  lemma PiecesOf(a: string, b: string, k: nat)
    requires a != "" && 0 < k <= |a| && Bordered(a, b)
    ensures (a + b)[k..] == a[k..] + b && (a + b)[..k] == a[..k] && Bordered(a[k..], b)
  {
    assert k < |a| ==> a[k..][|a[k..]| - 1] == a[|a| - 1];
  }

  lemma SameStep(a: string, b: string)
    requires a != "" && DigitRun(a + b) == DigitRun(a)
    ensures ScanStep(a + b) == ScanStep(a)
  {
  }

  /** The scan of a text with another behind it begins as the scan of the text alone. */
  lemma BeginsAlike(a: string, b: string) returns (k: nat, head: seq<string>)
    requires a != "" && Bordered(a, b)
    ensures 0 < k <= |a| && Bordered(a[k..], b)
    ensures ReferencesIn(a) == head + ReferencesIn(a[k..])
    ensures ReferencesIn(a + b) == head + ReferencesIn(a[k..] + b)
  {
    k := ScanStep(a);
    RunStaysInside(a, b);
    SameStep(a, b);
    PiecesOf(a, b, k);
    head := if DigitRun(a) >= MIN_REFERENCE then [a[..k]] else [];
    ScanTakes(a);
    ScanTakes(a + b);
  }

  /** Where no run of digits crosses, the references of a text are those of its parts. */
  lemma {:induction false} ReferencesJoin(a: string, b: string)
    requires Bordered(a, b)
    ensures ReferencesIn(a + b) == ReferencesIn(a) + ReferencesIn(b)
    decreases |a|
  {
    if a == "" {
      assert a + b == b;
    } else {
      var k, head := BeginsAlike(a, b);
      var rest := a[k..];
      ReferencesJoin(rest, b);
      Associative(head, ReferencesIn(rest), ReferencesIn(b));
    }
  }

  lemma {:induction false} AllRun(d: string)
    requires AllDigits(d)
    ensures DigitRun(d) == |d|
  {
    if d != "" {
      assert d[0] in d && forall c :: c in d[1..] ==> c in d;
      AllRun(d[1..]);
    }
  }

  /** A run of digits gives nothing when it has fewer than nine, itself up to twenty-two, and beyond that its
      first twenty-two and what the rest gives. */
  lemma {:induction false} ReferencesOfRun(d: string)
    requires AllDigits(d)
    ensures |d| < 9 ==> ReferencesIn(d) == []
    ensures 9 <= |d| <= 22 ==> ReferencesIn(d) == [d]
    ensures |d| > 22 ==> ReferencesIn(d) == [d[..22]] + ReferencesIn(d[22..])
    decreases |d|
  {
    AllRun(d);
    if d != "" {
      ScanTakes(d);
      if |d| < 9 {
        assert forall c :: c in d[1..] ==> c in d;
        ReferencesOfRun(d[1..]);
      } else if |d| <= 22 {
        assert d[..|d|] == d && d[|d|..] == "";
      }
    }
  }

  /** And a text without digits gives nothing. */
  lemma {:induction false} NoReferences(text: string)
    requires forall c :: c in text ==> !IsDigit(c)
    ensures ReferencesIn(text) == []
  {
    if text != "" {
      assert text[0] in text && forall c :: c in text[1..] ==> c in text;
      ScanTakes(text);
      NoReferences(text[1..]);
    }
  }

  // ------------------------------------------------------------------------ assessments

  /** The digits of an identifier, none when there is no identifier. */
  function DigitsIn(ref: Option<string>): string { if ref.None? then "" else Digits(ref.value) }

  /** The reference is the digits of the payment's RRN or of its UPI id. */
  predicate IsOurs(ref: string, rrn: Option<string>, upi: Option<string>) {
    ref != "" && (ref == DigitsIn(rrn) || ref == DigitsIn(upi))
  }

  /** Exactly how a claim is judged. Only a debit is judged at all. Digits quoted decide it: it confirms when they
      are the payment's and contradicts when the payment has others. Without digits quoted, a reference of the
      payment's in the text confirms, and nothing contradicts. */
  lemma AssessmentIff(claim: CustomerClaim, rrn: Option<string>, upi: Option<string>, rawText: string)
    ensures var m, quoted := AssessClaim(Some(claim), rrn, upi, rawText), DigitsIn(claim.reference);
            && (m == NoMatch <==> !claim.claimsDebited)
            && (m == Confirms <==>
                  claim.claimsDebited
                  && if quoted != "" then IsOurs(quoted, rrn, upi)
                     else exists ref :: ref in ReferencesIn(rawText) && IsOurs(ref, rrn, upi))
            && (m == Contradicts <==>
                  && claim.claimsDebited && quoted != "" && !IsOurs(quoted, rrn, upi)
                  && (DigitsIn(rrn) != "" || DigitsIn(upi) != ""))
    ensures AssessClaim(None, rrn, upi, rawText) == NoMatch
  {
    var ours := OurReferences(rrn, upi);
    assert forall ref :: ref in ours <==> IsOurs(ref, rrn, upi);
    if DigitsIn(rrn) != "" {
      assert DigitsIn(rrn) in ours;
    }
    if DigitsIn(upi) != "" {
      assert DigitsIn(upi) in ours;
    }
  }
}
