/** What a run of the resolver gathers, told from the outside answers alone: node i of a run is answered by the
    i-th oracle, so round k plans with oracle 4k + 1, fetches with 4k + 2 and reads messages with 4k + 3. */
module ResolverEvidence {
  import opened Common
  import opened Verdicts
  import opened Resolver

  // ------------------------------------------------------------------ told by the oracles

  /** The probes that ran in each round. */
  type Rounds = nat -> seq<Probe>

  /** What the probes reported, in the order they ran. */
  function Reported(ran: seq<Probe>, reports: Probe -> Report): (r: seq<Evidence>) {
    seq(|ran|, i requires 0 <= i < |ran| => reports(ran[i]).evidence)
  }

  predicate HoldsCustomerWords(r: Report) {
    r.messages && r.evidence.available && r.evidence.source == OtherSource("customer_messages")
  }

  predicate WordsIn(ran: seq<Probe>, reports: Probe -> Report) {
    exists p :: p in ran && HoldsCustomerWords(reports(p))
  }

  /** Some report of the first k rounds holds words of the customer. */
  predicate Wrote(ran: Rounds, oracles: seq<Oracle>, k: nat)
    requires 4 * k <= |oracles| + 1
  {
    k > 0 && (Wrote(ran, oracles, k - 1) || WordsIn(ran(k - 1), oracles[4 * k - 2].reports))
  }

  /** The claim read in a round, with the words it was read in: exactly when the customer has written by then
      and the model reads a claim. */
  function Read(wrote: bool, o: Oracle): seq<Evidence> {
    if wrote && o.claim.Some?
    then [Evidence(CustomerClaimSource, Fields(false, None, o.claim, o.raw), true)] else []
  }

  /** All that k rounds told, round by round. */
  function Told(ran: Rounds, oracles: seq<Oracle>, k: nat): seq<Evidence>
    requires 4 * k <= |oracles|
  {
    if k == 0 then []
    else Told(ran, oracles, k - 1) + Reported(ran(k - 1), oracles[4 * k - 2].reports)
         + Read(Wrote(ran, oracles, k), oracles[4 * k - 1])
  }

  /** Every probe handed out, round by round. */
  function AllRan(ran: Rounds, k: nat): seq<Probe> {
    if k == 0 then [] else AllRan(ran, k - 1) + ran(k - 1)
  }

  /** How often the model answered in k rounds. */
  function Answers(ran: Rounds, oracles: seq<Oracle>, k: nat): nat
    requires 4 * k <= |oracles|
  {
    if k == 0 then 0
    else Answers(ran, oracles, k - 1) + Planned(oracles[4 * k - 3]) + |Read(Wrote(ran, oracles, k), oracles[4 * k - 1])|
  }

  function Planned(o: Oracle): nat { if o.plan.Some? then 1 else 0 }

  // ------------------------------------------------------- more answers leave it as it is

  lemma {:induction false} WroteStays(ran: Rounds, more: Rounds, oracles: seq<Oracle>, o: Oracle, k: nat)
    requires 4 * k <= |oracles| + 1 && forall i: nat :: i < k ==> ran(i) == more(i)
    ensures Wrote(more, oracles + [o], k) == Wrote(ran, oracles, k) && AllRan(more, k) == AllRan(ran, k)
  {
    if k > 0 {
      WroteStays(ran, more, oracles, o, k - 1);
    }
  }

  lemma {:induction false} ToldStays(ran: Rounds, more: Rounds, oracles: seq<Oracle>, o: Oracle, k: nat)
    requires 4 * k <= |oracles| && forall i: nat :: i < k ==> ran(i) == more(i)
    ensures Told(more, oracles + [o], k) == Told(ran, oracles, k)
    ensures Answers(more, oracles + [o], k) == Answers(ran, oracles, k)
  {
    if k > 0 {
      ToldStays(ran, more, oracles, o, k - 1);
      WroteStays(ran, more, oracles, o, k);
      RoundTells(ran, more, oracles, oracles + [o], k);
    }
  }

  lemma RoundTells(ran: Rounds, more: Rounds, oracles: seq<Oracle>, all: seq<Oracle>, k: nat)
    requires 0 < k && 4 * k <= |oracles| && oracles <= all && ran(k - 1) == more(k - 1)
    requires Told(more, all, k - 1) == Told(ran, oracles, k - 1)
    requires Answers(more, all, k - 1) == Answers(ran, oracles, k - 1)
    requires Wrote(more, all, k) == Wrote(ran, oracles, k)
    ensures Told(more, all, k) == Told(ran, oracles, k) && Answers(more, all, k) == Answers(ran, oracles, k)
  {
    assert all[4 * k - 3] == oracles[4 * k - 3] && all[4 * k - 2] == oracles[4 * k - 2];
    assert all[4 * k - 1] == oracles[4 * k - 1];
  }

  // ---------------------------------------------------------------------- what a state holds

  /** What the state holds is what the answers told; between a fetch and the reading of its messages the last
      round's claim is still out. */
  ghost predicate HoldsTold(ran: Rounds, oracles: seq<Oracle>, s: State) {
    var k := s.rounds;
    if s.node == AtInterpret then
      && k > 0 && 4 * k == |oracles| + 1
      && s.evidence == Told(ran, oracles, k - 1) + Reported(ran(k - 1), oracles[4 * k - 2].reports)
      && s.answered == Answers(ran, oracles, k - 1) + Planned(oracles[4 * k - 3])
      && s.messages == Wrote(ran, oracles, k) && s.runs == AllRan(ran, k)
    else
      && 4 * k <= |oracles| && s.evidence == Told(ran, oracles, k)
      && s.messages == Wrote(ran, oracles, k) && s.runs == AllRan(ran, k)
      && (s.node in {AtPlan, AtAnalyze, AtNarrate} ==> s.answered == Answers(ran, oracles, k))
      && (s.node == AtFetch ==>
            |oracles| == 4 * k + 2 && s.answered == Answers(ran, oracles, k) + Planned(oracles[4 * k + 1]))
  }

  /** A node that gathers nothing. */
  lemma QuietNodeTells(ran: Rounds, more: Rounds, oracles: seq<Oracle>, o: Oracle, s: State, t: State)
    requires HoldsTold(ran, oracles, s) && s.node != AtInterpret && s.node != AtFetch && t.node != AtInterpret
    requires forall i: nat :: i < s.rounds ==> ran(i) == more(i)
    requires t.rounds == s.rounds && t.evidence == s.evidence && t.messages == s.messages && t.runs == s.runs
    requires t.node in {AtPlan, AtAnalyze, AtNarrate} ==>
               || (s.node in {AtPlan, AtAnalyze, AtNarrate} && t.answered == s.answered)
               || (s.rounds == 0 && t.answered == 0)
    requires t.node == AtFetch ==>
               s.node == AtPlan && |oracles| == 4 * s.rounds + 1 && t.answered == s.answered + Planned(o)
    ensures HoldsTold(more, oracles + [o], t)
  {
    ToldStays(ran, more, oracles, o, s.rounds);
    WroteStays(ran, more, oracles, o, s.rounds);
  }

  lemma FetchTells(ran: Rounds, more: Rounds, oracles: seq<Oracle>, o: Oracle, s: State, t: State)
    requires HoldsTold(ran, oracles, s) && s.node == AtFetch && t.node == AtInterpret
    requires forall i: nat :: i < s.rounds ==> ran(i) == more(i)
    requires t.rounds == s.rounds + 1 && t.runs == s.runs + more(s.rounds) && t.answered == s.answered
    requires t.evidence == s.evidence + Reported(more(s.rounds), o.reports)
    requires t.messages == (s.messages || WordsIn(more(s.rounds), o.reports))
    ensures HoldsTold(more, oracles + [o], t)
  {
    ToldStays(ran, more, oracles, o, s.rounds);
    WroteStays(ran, more, oracles, o, s.rounds);
  }

  lemma InterpretTells(ran: Rounds, more: Rounds, oracles: seq<Oracle>, o: Oracle, s: State, t: State)
    requires HoldsTold(ran, oracles, s) && s.node == AtInterpret && t.node == AtAnalyze
    requires forall i: nat :: i < s.rounds ==> ran(i) == more(i)
    requires t.rounds == s.rounds && t.runs == s.runs && t.messages == s.messages
    requires t.evidence == s.evidence + Read(s.messages, o)
    requires t.answered == s.answered + |Read(s.messages, o)|
    ensures HoldsTold(more, oracles + [o], t)
  {
    ToldStays(ran, more, oracles, o, s.rounds - 1);
    WroteStays(ran, more, oracles, o, s.rounds);
  }

  // -------------------------------------------------------------------------- the nodes

  lemma HoldsIff(run: seq<Probe>, reports: Probe -> Report)
    ensures HoldsMessages(run, reports) <==> WordsIn(run, reports)
  {
    if p :| p in run && HoldsCustomerWords(reports(p)) {
      var i :| 0 <= i < |run| && run[i] == p;
    }
  }

  lemma FetchGathers(g: Setting, s: State, o: Oracle) returns (run: seq<Probe>)
    requires s.node == AtFetch
    ensures run == Distinct(Runnable(g, s.chosen))
    ensures var t := Next(g, s, o);
            && t.node == AtInterpret && t.rounds == s.rounds + 1 && t.runs == s.runs + run && t.answered == s.answered
            && t.evidence == s.evidence + Reported(run, o.reports)
            && t.messages == (s.messages || WordsIn(run, o.reports))
  {
    run := Distinct(Runnable(g, s.chosen));
    HoldsIff(run, o.reports);
    assert Gathered(run, o.reports) == Reported(run, o.reports);
  }

  lemma InterpretGathers(g: Setting, s: State, o: Oracle)
    requires s.node == AtInterpret
    ensures var t := Next(g, s, o);
            && t.node == AtAnalyze && t.rounds == s.rounds && t.runs == s.runs && t.messages == s.messages
            && t.evidence == s.evidence + Read(s.messages, o) && t.answered == s.answered + |Read(s.messages, o)|
  {
  }

  lemma QuietNode(g: Setting, s: State, o: Oracle)
    requires s.node != AtFetch && s.node != AtInterpret && Bounded(s)
    ensures var t := Next(g, s, o);
            && t.node != AtInterpret && t.rounds == s.rounds && t.evidence == s.evidence
            && t.messages == s.messages && t.runs == s.runs
            && (t.node in {AtPlan, AtAnalyze, AtNarrate} ==>
                  || (s.node in {AtPlan, AtAnalyze, AtNarrate} && t.answered == s.answered)
                  || (s.rounds == 0 && t.answered == 0))
            && (t.node == AtFetch ==>
                  s.node == AtPlan && s.visited == 4 * s.rounds + 1 && t.answered == s.answered + Planned(o))
  {
  }

  // ---------------------------------------------------------------------------- the run

  /** The probes handed out by the i-th node of a run. */
  function RanAt(g: Setting, oracles: seq<Oracle>, i: nat): seq<Probe> {
    if i < |oracles| then Handed(After(g, oracles[..i]).runs, After(g, oracles[..i + 1]).runs) else []
  }

  function Handed(before: seq<Probe>, after: seq<Probe>): seq<Probe> {
    if |before| <= |after| then after[|before|..] else []
  }

  /** The probes that ran in each round of a run. */
  function RanIn(g: Setting, oracles: seq<Oracle>): Rounds { (k: nat) => RanAt(g, oracles, 4 * k + 2) }

  lemma RanStays(g: Setting, oracles: seq<Oracle>, o: Oracle, i: nat)
    requires i < |oracles|
    ensures RanAt(g, oracles + [o], i) == RanAt(g, oracles, i)
  {
    assert (oracles + [o])[..i] == oracles[..i] && (oracles + [o])[..i + 1] == oracles[..i + 1];
  }

  lemma RoundsStay(g: Setting, oracles: seq<Oracle>, o: Oracle, rounds: nat)
    requires 4 * rounds <= |oracles| + 1
    ensures forall k: nat :: k < rounds ==> RanIn(g, oracles)(k) == RanIn(g, oracles + [o])(k)
  {
    forall k: nat | k < rounds ensures RanIn(g, oracles)(k) == RanIn(g, oracles + [o])(k) {
      RanStays(g, oracles, o, 4 * k + 2);
    }
  }

  lemma OneMore(g: Setting, oracles: seq<Oracle>, o: Oracle)
    ensures After(g, oracles + [o]) == Next(g, After(g, oracles), o)
  {
    assert (oracles + [o])[..|oracles|] == oracles;
  }

  lemma LastRan(g: Setting, oracles: seq<Oracle>, o: Oracle)
    ensures RanAt(g, oracles + [o], |oracles|) == Handed(After(g, oracles).runs, After(g, oracles + [o]).runs)
  {
    var all := oracles + [o];
    assert all[..|oracles|] == oracles && all[..|oracles| + 1] == all;
  }

  /** The round about to be fetched is the one node 4k + 2 runs. */
  lemma FetchIsOfRound(g: Setting, oracles: seq<Oracle>, o: Oracle, s: State, k: nat)
    requires s == After(g, oracles) && s.node == AtFetch && |oracles| == 4 * k + 2
    ensures RanIn(g, oracles + [o])(k) == Handed(s.runs, Next(g, s, o).runs)
  {
    OneMore(g, oracles, o);
    LastRan(g, oracles, o);
  }

  lemma StepHoldsTold(g: Setting, ran: Rounds, more: Rounds, oracles: seq<Oracle>, o: Oracle, s: State)
    requires Bounded(s) && (s.node == Done || s.visited == |oracles|) && HoldsTold(ran, oracles, s)
    requires forall i: nat :: i < s.rounds ==> ran(i) == more(i)
    requires s.node == AtFetch ==> more(s.rounds) == Handed(s.runs, Next(g, s, o).runs)
    ensures HoldsTold(more, oracles + [o], Next(g, s, o))
  {
    if s.node == AtFetch {
      var run := FetchGathers(g, s, o);
      assert more(s.rounds) == run;
      FetchTells(ran, more, oracles, o, s, Next(g, s, o));
    } else if s.node == AtInterpret {
      InterpretGathers(g, s, o);
      InterpretTells(ran, more, oracles, o, s, Next(g, s, o));
    } else {
      QuietNode(g, s, o);
      QuietNodeTells(ran, more, oracles, o, s, Next(g, s, o));
    }
  }

  lemma {:induction false} RunHoldsTold(g: Setting, oracles: seq<Oracle>)
    ensures HoldsTold(RanIn(g, oracles), oracles, After(g, oracles))
    decreases |oracles|
  {
    if oracles != [] {
      var front, o := oracles[..|oracles| - 1], oracles[|oracles| - 1];
      assert oracles == front + [o];
      RunHoldsTold(g, front);
      RunIsBounded(g, front);
      OneMore(g, front, o);
      var s := After(g, front);
      RoundsStay(g, front, o, s.rounds);
      if s.node == AtFetch {
        FetchIsOfRound(g, front, o, s, s.rounds);
      }
      StepHoldsTold(g, RanIn(g, front), RanIn(g, oracles), front, o, s);
    }
  }

  // ------------------------------------------------------------------------- theorems

  /** Over every run, whatever the model and the probes answer: the evidence at the end is, round by round and
      in order, the report of each probe that ran in that round and then the claim the model read of the
      customer's words, if it did, and nothing else; and the verdict is the fold of just that. */
  lemma VerdictIsFoldOfReports(g: Setting, oracles: seq<Oracle>)
    ensures var s, ran := After(g, oracles), RanIn(g, oracles);
            s.node == Done ==>
              && 4 * s.rounds <= |oracles|
              && s.evidence == Told(ran, oracles, s.rounds) && s.runs == AllRan(ran, s.rounds)
              && s.verdict == Some(g.judge(Told(ran, oracles, s.rounds)))
  {
    RunHoldsTold(g, oracles);
    EndsAreJustified(g, oracles);
  }

  /** What runs in a round: each chosen probe that is not skipped, once; and what is chosen answers the plan of
      that round. */
  lemma RoundRuns(g: Setting, oracles: seq<Oracle>, o: Oracle, p: Oracle)
    requires After(g, oracles).node == AtPlan
    ensures var chosen := Chosen(g, After(g, oracles).fetches, o.plan);
            var ran := RanAt(g, oracles + [o] + [p], |oracles| + 1);
            && NoDuplicates(ran) && forall x :: x in ran <==> x in chosen && !Skips(g, x)
  {
    var s, t, u := After(g, oracles), After(g, oracles + [o]), After(g, oracles + [o] + [p]);
    OneMore(g, oracles, o);
    OneMore(g, oracles + [o], p);
    LastRan(g, oracles + [o], p);
    PlanChooses(g, s, o);
    var run := FetchGathers(g, t, p);
    assert Handed(t.runs, u.runs) == run;
    ChosenAreUntried(g, s.fetches, o.plan);
  }

  lemma PlanChooses(g: Setting, s: State, o: Oracle)
    requires s.node == AtPlan
    ensures var t := Next(g, s, o); t.node == AtFetch && t.chosen == Chosen(g, s.fetches, o.plan)
  {
  }

  /** Where a run goes: past the first node exactly while the fold without evidence is open or not sure enough; and
      after a round to the end when the verdict is settled, to another round while there are fewer than three, the
      last fetch named something and some probe has not been named yet, and to the narrative otherwise. */
  lemma RoutesIff(g: Setting, oracles: seq<Oracle>, o: Oracle)
    ensures var first := g.judge([]);
            After(g, [o]).node
            == if first.verdict == Verdict.Unresolved || first.confidence < 9_000 then AtPlan else Node.Done
    ensures var s, t := After(g, oracles), After(g, oracles + [o]);
            s.node == AtAnalyze && s.fetches != [] ==>
              t.node == if g.judge(s.evidence).verdict != Verdict.Unresolved then Node.Done
                        else if s.rounds < 3 && s.fetches[|s.fetches| - 1].Names() != {}
                                && exists p: Probe :: SourceOf(p) !in AttemptedOf(s.fetches) then AtPlan
                        else AtNarrate
  {
    OneMore(g, oracles, o);
    assert [o][..0] == [];
    var s := After(g, oracles);
    if s.node == AtAnalyze && s.fetches != [] {
      RouteIs(g.judge(s.evidence), s.rounds, s.fetches);
    }
  }

  lemma RouteIs(v: Fold.VerdictResult, rounds: nat, fetches: seq<Fetched>)
    requires fetches != []
    ensures RouteAnalyze(v, rounds, fetches)
            == if v.verdict != Verdict.Unresolved then Node.Done
               else if rounds < 3 && fetches[|fetches| - 1].Names() != {}
                       && exists p: Probe :: SourceOf(p) !in AttemptedOf(fetches) then AtPlan
               else AtNarrate
  {
    NamesNothing(fetches[|fetches| - 1]);
    if p: Probe :| SourceOf(p) !in AttemptedOf(fetches) {
      EveryProbeIsPlannable(p);
      assert p in PLANNABLE && !Tried(fetches, p);
    }
    if p :| p in PLANNABLE && !Tried(fetches, p) {
      assert SourceOf(p) !in AttemptedOf(fetches);
    }
  }

  lemma NamesNothing(f: Fetched)
    ensures f.Nothing() <==> f.Names() == {}
  {
    if f.available != [] { assert f.available[0] in f.Names(); }
    if f.unavailable != [] { assert f.unavailable[0] in f.Names(); }
    if f.skipped != [] { assert f.skipped[0] in f.Names(); }
  }

  lemma NextGoesOn(g: Setting, s: State, o: Oracle)
    requires Bounded(s)
    requires s.node == AtNarrate || (s.node == AtPlan && s.rounds > 0) ==>
               s.verdict.Some? && s.verdict.value.verdict == Verdict.Unresolved
    ensures var t := Next(g, s, o);
            t.node == AtNarrate || (t.node == AtPlan && t.rounds > 0) ==>
              t.verdict.Some? && t.verdict.value.verdict == Verdict.Unresolved
  {
  }

  /** The graph goes on after a round, or asks for a narrative, only while the verdict is UNRESOLVED. */
  lemma {:induction false} GoesOnWhileUnresolved(g: Setting, oracles: seq<Oracle>)
    ensures var s := After(g, oracles);
            s.node == AtNarrate || (s.node == AtPlan && s.rounds > 0) ==>
              s.verdict.Some? && s.verdict.value.verdict == Verdict.Unresolved
    decreases |oracles|
  {
    if oracles != [] {
      var front := oracles[..|oracles| - 1];
      GoesOnWhileUnresolved(g, front);
      RunIsBounded(g, front);
      NextGoesOn(g, After(g, front), oracles[|oracles| - 1]);
    }
  }

  // ------------------------------------------------------------------- the model's calls

  /** How often the model was asked in k rounds: for each plan, and once the customer has written for each reading. */
  function Asked(ran: Rounds, oracles: seq<Oracle>, k: nat): nat
    requires 4 * k <= |oracles| + 1
  {
    if k == 0 then 0 else Asked(ran, oracles, k - 1) + 1 + if Wrote(ran, oracles, k) then 1 else 0
  }

  lemma {:induction false} AskedStays(ran: Rounds, more: Rounds, oracles: seq<Oracle>, o: Oracle, k: nat)
    requires 4 * k <= |oracles| + 1 && forall i: nat :: i < k ==> ran(i) == more(i)
    ensures Asked(more, oracles + [o], k) == Asked(ran, oracles, k)
  {
    if k > 0 {
      AskedStays(ran, more, oracles, o, k - 1);
      WroteStays(ran, more, oracles, o, k);
    }
  }

  predicate Open(s: State) { s.verdict.Some? && s.verdict.value.verdict == Verdict.Unresolved }

  /** What the state has counted is what the answers told. */
  ghost predicate Counted(ran: Rounds, oracles: seq<Oracle>, s: State) {
    var k := s.rounds;
    match s.node
    case AtPrecheck => k == 0 && s.asked == 0
    case AtPlan => 4 * k <= |oracles| && s.asked == Asked(ran, oracles, k)
    case AtFetch => 4 * k <= |oracles| && s.asked == Asked(ran, oracles, k) + 1
    case AtInterpret => k > 0 && 4 * k <= |oracles| + 1 && s.asked == Asked(ran, oracles, k - 1) + 1
    case AtAnalyze => 4 * k <= |oracles| && s.asked == Asked(ran, oracles, k)
    case AtNarrate => 4 * k <= |oracles| && s.asked == Asked(ran, oracles, k) && Open(s)
    case Done =>
      if Open(s) then
        && 4 * k + 2 <= |oracles| && s.asked == Asked(ran, oracles, k) + 1
        && s.answered == Answers(ran, oracles, k) + (if oracles[4 * k + 1].narrative then 1 else 0)
      else 4 * k <= |oracles| && s.asked == Asked(ran, oracles, k) && s.answered == Answers(ran, oracles, k)
  }

  lemma PlanCounted(g: Setting, ran: Rounds, more: Rounds, oracles: seq<Oracle>, o: Oracle, s: State)
    requires Counted(ran, oracles, s) && (s.node == AtPlan || s.node == AtFetch)
    requires s.node == AtFetch ==> |oracles| == 4 * s.rounds + 2
    requires forall i: nat :: i < s.rounds ==> ran(i) == more(i)
    ensures Counted(more, oracles + [o], Next(g, s, o))
  {
    AskedStays(ran, more, oracles, o, s.rounds);
  }

  lemma InterpretCounts(g: Setting, s: State, o: Oracle)
    requires s.node == AtInterpret
    ensures var t := Next(g, s, o);
            t.node == AtAnalyze && t.rounds == s.rounds && t.asked == s.asked + if s.messages then 1 else 0
  {
  }

  lemma ReadingCounted(ran: Rounds, more: Rounds, oracles: seq<Oracle>, o: Oracle, s: State, t: State)
    requires Counted(ran, oracles, s) && s.node == AtInterpret && |oracles| == 4 * s.rounds - 1
    requires t.node == AtAnalyze && t.rounds == s.rounds && t.asked == s.asked + if s.messages then 1 else 0
    requires s.messages == Wrote(ran, oracles, s.rounds) && forall i: nat :: i < s.rounds ==> ran(i) == more(i)
    ensures Counted(more, oracles + [o], t)
  {
    AskedStays(ran, more, oracles, o, s.rounds - 1);
    WroteStays(ran, more, oracles, o, s.rounds);
  }

  lemma AnalyzeCounts(g: Setting, s: State, o: Oracle)
    requires s.node == AtAnalyze
    ensures var t := Next(g, s, o);
            && t.rounds == s.rounds && t.asked == s.asked && t.answered == s.answered
            && t.node in {AtPlan, AtNarrate, Node.Done} && (t.node == Node.Done <==> !Open(t))
  {
  }

  lemma AnalyzeCounted(ran: Rounds, more: Rounds, oracles: seq<Oracle>, o: Oracle, s: State, t: State)
    requires Counted(ran, oracles, s) && s.node == AtAnalyze && s.answered == Answers(ran, oracles, s.rounds)
    requires t.rounds == s.rounds && t.asked == s.asked && t.answered == s.answered
    requires t.node in {AtPlan, AtNarrate, Node.Done} && (t.node == Node.Done <==> !Open(t))
    requires forall i: nat :: i < s.rounds ==> ran(i) == more(i)
    ensures Counted(more, oracles + [o], t)
  {
    AskedStays(ran, more, oracles, o, s.rounds);
    ToldStays(ran, more, oracles, o, s.rounds);
  }

  lemma NarrateCounted(ran: Rounds, more: Rounds, oracles: seq<Oracle>, o: Oracle, s: State, t: State)
    requires Counted(ran, oracles, s) && s.node == AtNarrate && |oracles| == 4 * s.rounds + 1
    requires s.answered == Answers(ran, oracles, s.rounds)
    requires t.node == Node.Done && t.rounds == s.rounds && t.verdict == s.verdict && t.asked == s.asked + 1
    requires t.answered == s.answered + if o.narrative then 1 else 0
    requires forall i: nat :: i < s.rounds ==> ran(i) == more(i)
    ensures Counted(more, oracles + [o], t)
  {
    AskedStays(ran, more, oracles, o, s.rounds);
    ToldStays(ran, more, oracles, o, s.rounds);
  }

  lemma DoneCounted(ran: Rounds, more: Rounds, oracles: seq<Oracle>, o: Oracle, s: State)
    requires Counted(ran, oracles, s) && s.node == Node.Done
    requires forall i: nat :: i < s.rounds ==> ran(i) == more(i)
    ensures Counted(more, oracles + [o], s)
  {
    AskedStays(ran, more, oracles, o, s.rounds);
    ToldStays(ran, more, oracles, o, s.rounds);
  }

  lemma StepCounted(g: Setting, ran: Rounds, more: Rounds, oracles: seq<Oracle>, o: Oracle, s: State)
    requires Bounded(s) && (s.node == Node.Done || s.visited == |oracles|)
    requires HoldsTold(ran, oracles, s) && Counted(ran, oracles, s)
    requires forall i: nat :: i < s.rounds ==> ran(i) == more(i)
    ensures Counted(more, oracles + [o], Next(g, s, o))
  {
    match s.node
    case AtPrecheck =>
    case AtPlan => PlanCounted(g, ran, more, oracles, o, s);
    case AtFetch => PlanCounted(g, ran, more, oracles, o, s);
    case AtInterpret =>
      InterpretCounts(g, s, o);
      ReadingCounted(ran, more, oracles, o, s, Next(g, s, o));
    case AtAnalyze =>
      AnalyzeCounts(g, s, o);
      AnalyzeCounted(ran, more, oracles, o, s, Next(g, s, o));
    case AtNarrate => NarrateCounted(ran, more, oracles, o, s, Next(g, s, o));
    case Done => DoneCounted(ran, more, oracles, o, s);
  }

  lemma {:induction false} RunCounted(g: Setting, oracles: seq<Oracle>)
    ensures Counted(RanIn(g, oracles), oracles, After(g, oracles))
    decreases |oracles|
  {
    if oracles != [] {
      var front, o := oracles[..|oracles| - 1], oracles[|oracles| - 1];
      assert oracles == front + [o];
      RunCounted(g, front);
      RunHoldsTold(g, front);
      RunIsBounded(g, front);
      OneMore(g, front, o);
      RoundsStay(g, front, o, After(g, front).rounds);
      StepCounted(g, RanIn(g, front), RanIn(g, oracles), front, o, After(g, front));
    }
  }

  /** How often a finished run has asked the model, and how often it was answered: once for each plan, once for each
      reading from the round on in which the customer wrote, and once more for the narrative of an UNRESOLVED order. */
  lemma ModelCallsAre(g: Setting, oracles: seq<Oracle>)
    ensures var s, ran := After(g, oracles), RanIn(g, oracles);
            s.node == Node.Done ==>
              && 4 * s.rounds <= |oracles| && (Open(s) ==> 4 * s.rounds + 2 <= |oracles|)
              && s.asked == Asked(ran, oracles, s.rounds) + (if Open(s) then 1 else 0)
              && s.answered == Answers(ran, oracles, s.rounds)
                               + if Open(s) && oracles[4 * s.rounds + 1].narrative then 1 else 0
  {
    RunCounted(g, oracles);
  }

  // ---------------------------------------------------------------------------- plans

  /** The probes still to try are found name by name and keep the order asked for. */
  lemma {:induction false} UntriedJoin(a: seq<Probe>, b: seq<Probe>, wired: set<Probe>, fetches: seq<Fetched>)
    ensures Untried(a + b, wired, fetches) == Untried(a, wired, fetches) + Untried(b, wired, fetches)
  {
    if a == [] {
      assert a + b == b;
    } else {
      var p, rest := a[0], a[1..];
      assert a == [p] + rest && a + b == [p] + (rest + b);
      UntriedJoin(rest, b, wired, fetches);
      UntriedFirst(p, rest, wired, fetches);
      UntriedFirst(p, rest + b, wired, fetches);
      Associative(Untried([p], wired, fetches), Untried(rest, wired, fetches), Untried(b, wired, fetches));
    }
  }

  lemma UntriedFirst(p: Probe, rest: seq<Probe>, wired: set<Probe>, fetches: seq<Fetched>)
    ensures Untried([p] + rest, wired, fetches)
            == Untried([p], wired, fetches) + Untried(rest, wired, fetches)
  {
    assert ([p] + rest)[1..] == rest && [p][1..] == [];
  }

  lemma UntriedOne(p: Probe, wired: set<Probe>, fetches: seq<Fetched>)
    ensures Untried([p], wired, fetches) == if p in wired && SourceOf(p) !in AttemptedOf(fetches) then [p] else []
  {
    assert [p][1..] == [];
  }

  /** What is chosen: of the model's names the first three still to try; when it names none, the fixed plan, which
      asks for the attempts and the payment, for downtime only when the failure came before any debit, and for the
      customer's messages, and only after those for what else is left, three at a time. */
  lemma ChosenIs(g: Setting, fetches: seq<Fetched>, plan: Option<seq<Probe>>)
    ensures var asked := if plan.Some? then Untried(plan.value, g.wired, fetches) else [];
            var first := Untried(if g.preDebit then [Attempts, Payment, Downtime, CustomerMessages]
                                 else [Attempts, Payment, CustomerMessages], g.wired, fetches);
            var rest := Untried([Payment, Attempts, Downtime, History, Settlement, BankPrior, CustomerMessages],
                                g.wired, fetches);
            Chosen(g, fetches, plan) == if asked != [] then asked[..if |asked| < 3 then |asked| else 3]
                                        else if first != [] then first
                                        else rest[..if |rest| < 3 then |rest| else 3]
  {
    var asked := if plan.Some? then Untried(plan.value, g.wired, fetches) else [];
    assert |asked| <= 3 ==> asked[..|asked|] == asked;
    var rest := Untried(PLANNABLE, g.wired, fetches);
    assert |rest| <= 3 ==> rest[..|rest|] == rest;
  }

  /** Without an API client the shipped probes for the payment, its attempts and downtime never run; every other
      probe, and every probe of one's own, runs when it is chosen. */
  lemma SkippedIff(g: Setting, p: Probe)
    ensures Skips(g, p) <==> g.defaults && !g.client && (p == Payment || p == Attempts || p == Downtime)
  {
  }

  lemma {:induction false} SkippedNeverRun(g: Setting, oracles: seq<Oracle>)
    requires g.defaults && !g.client
    ensures forall p :: p in After(g, oracles).runs ==> p != Payment && p != Attempts && p != Downtime
    decreases |oracles|
  {
    if oracles != [] {
      SkippedNeverRun(g, oracles[..|oracles| - 1]);
    }
  }
}
