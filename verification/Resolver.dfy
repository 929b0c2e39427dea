/** The resolver graph of services/resolver/graph.py: precheck, then rounds of plan, fetch,
    interpret and analyze, then a narrative, against a model and probes that may answer anything.
    The fold is a parameter: `judge` maps the evidence gathered so far to a verdict. */
module Resolver {
  import opened Common
  import opened Events
  import opened Verdicts
  import Fold
  import FoldTheorems

  const MAX_ROUNDS := 3
  const PRECHECK_CONFIDENCE := 9_000

  datatype Probe = Payment | Attempts | Downtime | History | Settlement | BankPrior | CustomerMessages

  const PLANNABLE: seq<Probe> := [Payment, Attempts, Downtime, History, Settlement, BankPrior, CustomerMessages]

  predicate NeedsClient(p: Probe) { p == Payment || p == Attempts || p == Downtime }

  /** The evidence source a probe's name stands for. */
  function SourceOf(p: Probe): Source {
    match p
    case Payment => OtherSource("payment")
    case Attempts => OtherSource("attempts")
    case Downtime => DowntimeSource
    case History => OtherSource("history")
    case Settlement => SettlementSource
    case BankPrior => OtherSource("bank_prior")
    case CustomerMessages => OtherSource("customer_messages")
  }

  /** What does not change during a run: the fold, the wired fetchers, whether they are the default
      set, whether there is an HTTP client, and whether the latest observation failed before any debit. */
  datatype Setting = Setting(judge: seq<Evidence> -> Fold.VerdictResult, wired: set<Probe>, defaults: bool,
                             client: bool, preDebit: bool)

  /** A probe's evidence, and whether its value holds customer messages. */
  datatype Report = Report(evidence: Evidence, messages: bool)

  /** What the outside world answers during one node: the plan the model asks for, the reports of the
      probes, the claim the model reads out of the messages, and whether it writes a narrative.
      None stands for a model that is unavailable. */
  datatype Oracle = Oracle(plan: Option<seq<Probe>>, reports: Probe -> Report,
                           claim: Option<Claims.CustomerClaim>, raw: string, narrative: bool)

  /** The output of one fetch step: the sources that answered, those that did not, and what was skipped. */
  datatype Fetched = Fetched(available: seq<Source>, unavailable: seq<Source>, skipped: seq<Source>) {
    predicate Nothing() { available == [] && unavailable == [] && skipped == [] }

    function Names(): set<Source> {
      (set x | x in available) + (set x | x in unavailable) + (set x | x in skipped)
    }
  }

  datatype Node = AtPrecheck | AtPlan | AtFetch | AtInterpret | AtAnalyze | AtNarrate | Done

  /** `asked` counts every request to the model and `answered` those it answered (`llm_calls`);
      `visited` counts nodes, `runs` lists the probes handed to the breaker, in order. */
  datatype State = State(node: Node, visited: nat, rounds: nat, asked: nat, answered: nat,
                         fetches: seq<Fetched>, chosen: seq<Probe>, runs: seq<Probe>,
                         evidence: seq<Evidence>, messages: bool, verdict: Option<Fold.VerdictResult>)

  const START := State(AtPrecheck, 0, 0, 0, 0, [], [], [], [], false, None)

  predicate Unresolved(v: Fold.VerdictResult) { v.verdict == Verdict.Unresolved }

  // --------------------------------------------------------------------------- attempted

  /** Every source named by a fetch step so far. */
  function AttemptedOf(fetches: seq<Fetched>): set<Source> {
    if fetches == [] then {} else AttemptedOf(fetches[..|fetches| - 1]) + fetches[|fetches| - 1].Names()
  }

  /** The loop of `_attempted`, which `route_analyze` repeats. */
  method Attempted(fetches: seq<Fetched>) returns (out: set<Source>)
    ensures out == AttemptedOf(fetches)
  {
    out := {};
    for i := 0 to |fetches|
      invariant out == AttemptedOf(fetches[..i])
    {
      out := out + (set x | x in fetches[i].available);
      out := out + (set x | x in fetches[i].unavailable);
      out := out + (set x | x in fetches[i].skipped);
      assert fetches[..i + 1][..i] == fetches[..i];
    }
    assert fetches[..|fetches|] == fetches;
  }

  predicate Tried(fetches: seq<Fetched>, p: Probe) { SourceOf(p) in AttemptedOf(fetches) }

  // -------------------------------------------------------------------------------- plan

  /** The probes of the list that are wired and not yet attempted, in order. */
  function Untried(ps: seq<Probe>, wired: set<Probe>, fetches: seq<Fetched>): (r: seq<Probe>)
    ensures forall p :: p in r <==> p in ps && p in wired && !Tried(fetches, p)
    ensures |r| <= |ps|
  {
    if ps == [] then []
    else
      var rest := Untried(ps[1..], wired, fetches);
      if ps[0] in wired && !Tried(fetches, ps[0]) then [ps[0]] + rest else rest
  }

  function FirstThree(ps: seq<Probe>): (r: seq<Probe>)
    ensures r <= ps && |r| <= 3 && (r == [] <==> ps == [])
  {
    if |ps| <= 3 then ps else ps[..3]
  }

  function Priority(preDebit: bool): seq<Probe> {
    if preDebit then [Attempts, Payment, Downtime, CustomerMessages] else [Attempts, Payment, CustomerMessages]
  }

  /** The fixed plan. */
  function Fallback(g: Setting, fetches: seq<Fetched>): seq<Probe> {
    var first := Untried(Priority(g.preDebit), g.wired, fetches);
    if first == [] then FirstThree(Untried(PLANNABLE, g.wired, fetches)) else first
  }

  function Chosen(g: Setting, fetches: seq<Fetched>, plan: Option<seq<Probe>>): seq<Probe> {
    var picked := if plan.Some? then FirstThree(Untried(plan.value, g.wired, fetches)) else [];
    if picked == [] then Fallback(g, fetches) else picked
  }

  lemma EveryProbeIsPlannable(p: Probe)
    ensures p in PLANNABLE
  {
    assert PLANNABLE[match p case Payment => 0 case Attempts => 1 case Downtime => 2 case History => 3
                     case Settlement => 4 case BankPrior => 5 case CustomerMessages => 6] == p;
  }

  /** Whatever the model asks for, the chosen probes are wired and untried, and none is chosen only
      when no wired probe is left. */
  lemma ChosenAreUntried(g: Setting, fetches: seq<Fetched>, plan: Option<seq<Probe>>)
    ensures forall p :: p in Chosen(g, fetches, plan) ==> p in g.wired && !Tried(fetches, p)
    ensures Chosen(g, fetches, plan) == [] <==> forall p :: p in g.wired ==> Tried(fetches, p)
  {
    forall p: Probe ensures p in PLANNABLE {
      EveryProbeIsPlannable(p);
    }
    var all := Untried(PLANNABLE, g.wired, fetches);
    if all != [] {
      assert all[0] in all;
    }
    var chosen := Chosen(g, fetches, plan);
    if chosen != [] {
      assert chosen[0] in chosen;
    }
  }

  // ------------------------------------------------------------------------------- fetch

  predicate NoDuplicates(ps: seq<Probe>) {
    forall i, j :: 0 <= i < j < |ps| ==> ps[i] != ps[j]
  }

  /** The distinct members of the list, in order of first occurrence: the keys of a dictionary. */
  function Distinct(ps: seq<Probe>): (r: seq<Probe>)
    ensures forall p :: p in r <==> p in ps
    ensures NoDuplicates(r)
  {
    if ps == [] then []
    else
      var front, last := Distinct(ps[..|ps| - 1]), ps[|ps| - 1];
      assert ps == ps[..|ps| - 1] + [last];
      if last in front then front else front + [last]
  }

  predicate Skips(g: Setting, p: Probe) { g.defaults && NeedsClient(p) && !g.client }

  function Skipped(g: Setting, ps: seq<Probe>): (r: seq<Source>)
    ensures forall p :: p in ps && Skips(g, p) ==> SourceOf(p) in r
    ensures r == [] <==> forall p :: p in ps ==> !Skips(g, p)
  {
    if ps == [] then [] else (if Skips(g, ps[0]) then [SourceOf(ps[0])] else []) + Skipped(g, ps[1..])
  }

  function Runnable(g: Setting, ps: seq<Probe>): (r: seq<Probe>)
    ensures forall p :: p in r <==> p in ps && !Skips(g, p) && p in g.wired
  {
    if ps == [] then []
    else (if !Skips(g, ps[0]) && ps[0] in g.wired then [ps[0]] else []) + Runnable(g, ps[1..])
  }

  function Gathered(ps: seq<Probe>, reports: Probe -> Report): (r: seq<Evidence>)
    ensures |r| == |ps| && forall i :: 0 <= i < |ps| ==> r[i] == reports(ps[i]).evidence
  {
    if ps == [] then [] else [reports(ps[0]).evidence] + Gathered(ps[1..], reports)
  }

  function SourcesOf(evidence: seq<Evidence>, available: bool): (r: seq<Source>)
    ensures forall e :: e in evidence && e.available == available ==> e.source in r
  {
    if evidence == [] then []
    else (if evidence[0].available == available then [evidence[0].source] else []) + SourcesOf(evidence[1..], available)
  }

  predicate HoldsMessages(ps: seq<Probe>, reports: Probe -> Report) {
    exists i :: 0 <= i < |ps| && reports(ps[i]).messages && reports(ps[i]).evidence.available
                && reports(ps[i]).evidence.source == SourceOf(CustomerMessages)
  }

  // ------------------------------------------------------------------------------- nodes

  function Precheck(g: Setting, s: State): State {
    var v := g.judge(s.evidence);
    s.(verdict := Some(v), node := if Unresolved(v) || v.confidence < PRECHECK_CONFIDENCE then AtPlan else Done)
  }

  function Plan(g: Setting, s: State, o: Oracle): State {
    s.(chosen := Chosen(g, s.fetches, o.plan), node := AtFetch,
       asked := s.asked + 1, answered := s.answered + if o.plan.Some? then 1 else 0)
  }

  function Fetch(g: Setting, s: State, o: Oracle): State {
    var run := Distinct(Runnable(g, s.chosen));
    var ev := Gathered(run, o.reports);
    s.(fetches := s.fetches + [Fetched(SourcesOf(ev, true), SourcesOf(ev, false), Skipped(g, s.chosen))],
       runs := s.runs + run, evidence := s.evidence + ev, rounds := s.rounds + 1,
       messages := s.messages || HoldsMessages(run, o.reports), node := AtInterpret)
  }

  function Interpret(s: State, o: Oracle): State {
    var t := s.(node := AtAnalyze);
    if !s.messages then t
    else if o.claim.None? then t.(asked := s.asked + 1)
    else t.(asked := s.asked + 1, answered := s.answered + 1,
            evidence := s.evidence
              + [Evidence(CustomerClaimSource, Fields(false, None, o.claim, o.raw), true)])
  }

  predicate WorthAnotherRound(fetches: seq<Fetched>) {
    && (fetches == [] || !fetches[|fetches| - 1].Nothing())
    && exists p :: p in PLANNABLE && !Tried(fetches, p)
  }

  function RouteAnalyze(v: Fold.VerdictResult, rounds: nat, fetches: seq<Fetched>): Node {
    if !Unresolved(v) then Done
    else if rounds >= MAX_ROUNDS then AtNarrate
    else if WorthAnotherRound(fetches) then AtPlan
    else AtNarrate
  }

  function Analyze(g: Setting, s: State): State {
    var v := g.judge(s.evidence);
    s.(verdict := Some(v), node := RouteAnalyze(v, s.rounds, s.fetches))
  }

  function Narrate(s: State, o: Oracle): State {
    s.(asked := s.asked + 1, answered := s.answered + (if o.narrative then 1 else 0), node := Done)
  }

  function Next(g: Setting, s: State, o: Oracle): State {
    var t := s.(visited := s.visited + 1);
    match s.node
    case AtPrecheck => Precheck(g, t)
    case AtPlan => Plan(g, t, o)
    case AtFetch => Fetch(g, t, o)
    case AtInterpret => Interpret(t, o)
    case AtAnalyze => Analyze(g, t)
    case AtNarrate => Narrate(t, o)
    case Done => s
  }

  function After(g: Setting, oracles: seq<Oracle>): State
    decreases |oracles|
  {
    if oracles == [] then START
    else Next(g, After(g, oracles[..|oracles| - 1]), oracles[|oracles| - 1])
  }

  // ------------------------------------------------------------------------- boundedness

  /** How many nodes have run is fixed by the node and the round the graph is at, and the model has
      been asked at most once per plan, once per round of messages, and once for the narrative. */
  predicate Bounded(s: State) {
    var read := if s.messages then s.rounds else 0;
    match s.node
    case AtPrecheck => s == START
    case AtPlan => s.rounds < MAX_ROUNDS && s.visited == 4 * s.rounds + 1 && s.asked <= s.rounds + read
    case AtFetch => s.rounds < MAX_ROUNDS && s.visited == 4 * s.rounds + 2 && s.asked <= s.rounds + 1 + read
    case AtInterpret => 1 <= s.rounds <= MAX_ROUNDS && s.visited == 4 * s.rounds - 1
                        && s.asked <= s.rounds + (if s.messages then s.rounds - 1 else 0)
    case AtAnalyze => 1 <= s.rounds <= MAX_ROUNDS && s.visited == 4 * s.rounds && s.asked <= s.rounds + read
    case AtNarrate => 1 <= s.rounds <= MAX_ROUNDS && s.visited == 4 * s.rounds + 1 && s.asked <= s.rounds + read
    case Done => s.rounds <= MAX_ROUNDS && s.visited <= 4 * s.rounds + 2
                 && s.asked <= (if s.rounds == 0 then 0 else s.rounds + read + 1)
  }

  lemma NextKeepsBounded(g: Setting, s: State, o: Oracle)
    requires Bounded(s)
    ensures Bounded(Next(g, s, o))
    ensures s.node != Done ==> Next(g, s, o).visited == s.visited + 1
  {
  }

  lemma {:induction false} RunIsBounded(g: Setting, oracles: seq<Oracle>)
    ensures var s := After(g, oracles); Bounded(s) && (s.node == Done || s.visited == |oracles|)
    decreases |oracles|
  {
    if oracles != [] {
      RunIsBounded(g, oracles[..|oracles| - 1]);
      NextKeepsBounded(g, After(g, oracles[..|oracles| - 1]), oracles[|oracles| - 1]);
    }
  }

  /** Whatever the model and the probes answer, the graph has ended after at most 14 nodes and three
      rounds, having asked the model at most seven times, and four when no customer wrote. */
  lemma ResolverEnds(g: Setting, oracles: seq<Oracle>)
    ensures var s := After(g, oracles);
            && s.visited <= 14 && s.rounds <= MAX_ROUNDS
            && s.asked <= 7 && (!s.messages ==> s.asked <= 4)
            && (|oracles| >= 14 ==> s.node == Done)
  {
    RunIsBounded(g, oracles);
  }

  /** A verdict the rules are sure of without evidence ends the graph at its first node, and the model
      is never asked. */
  lemma {:induction false} PrecheckAsksNoModel(g: Setting, oracles: seq<Oracle>)
    requires var v := g.judge([]); !Unresolved(v) && v.confidence >= PRECHECK_CONFIDENCE
    ensures var s := After(g, oracles);
            s.asked == 0 && s.rounds == 0 && s.visited <= 1 && s.evidence == []
            && (oracles != [] ==> s.node == Done && s.verdict == Some(g.judge([])))
    decreases |oracles|
  {
    if oracles != [] {
      PrecheckAsksNoModel(g, oracles[..|oracles| - 1]);
    }
  }

  // ----------------------------------------------------------------------- no probe twice

  /** Every probe that can run reports under its own name, as each of the shipped fetchers does. */
  predicate Named(g: Setting, reports: Probe -> Report) {
    forall p :: p in g.wired && !Skips(g, p) ==> reports(p).evidence.source == SourceOf(p)
  }

  ghost predicate AllNamed(g: Setting, oracles: seq<Oracle>) {
    forall i :: 0 <= i < |oracles| ==> Named(g, oracles[i].reports)
  }

  /** No probe ran twice, every probe that ran counts as attempted, and none about to run does. */
  ghost predicate NoRepeats(g: Setting, s: State) {
    && NoDuplicates(s.runs)
    && (forall i :: 0 <= i < |s.runs| ==> Tried(s.fetches, s.runs[i]))
    && (s.node == AtFetch ==> forall p :: p in s.chosen ==> p in g.wired && !Tried(s.fetches, p))
  }

  lemma AttemptedGrows(fetches: seq<Fetched>, f: Fetched)
    ensures AttemptedOf(fetches + [f]) == AttemptedOf(fetches) + f.Names()
  {
    assert (fetches + [f])[..|fetches|] == fetches;
  }

  /** A fetch leaves everything it was asked for attempted, when probes report under their own name. */
  lemma FetchTriesChosen(g: Setting, s: State, o: Oracle)
    requires Named(g, o.reports)
    ensures forall p :: Tried(s.fetches, p) || (p in s.chosen && p in g.wired) ==> Tried(Fetch(g, s, o).fetches, p)
  {
    var run := Distinct(Runnable(g, s.chosen));
    var ev := Gathered(run, o.reports);
    var f := Fetched(SourcesOf(ev, true), SourcesOf(ev, false), Skipped(g, s.chosen));
    AttemptedGrows(s.fetches, f);
    forall p | p in s.chosen && p in g.wired ensures SourceOf(p) in f.Names() {
      if !Skips(g, p) {
        assert p in run;
        var i :| 0 <= i < |run| && run[i] == p;
        assert ev[i] == o.reports(p).evidence && ev[i] in ev;
      }
    }
  }

  lemma FetchKeepsNoRepeats(g: Setting, s: State, o: Oracle)
    requires NoRepeats(g, s) && Named(g, o.reports) && s.node == AtFetch
    ensures NoRepeats(g, Fetch(g, s, o))
  {
    FetchTriesChosen(g, s, o);
    var run, t := Distinct(Runnable(g, s.chosen)), Fetch(g, s, o);
    forall i | 0 <= i < |run| ensures run[i] in s.chosen && run[i] in g.wired {
      assert run[i] in run;
    }
    assert t.runs == s.runs + run;
  }

  lemma NextKeepsNoRepeats(g: Setting, s: State, o: Oracle)
    requires NoRepeats(g, s) && Named(g, o.reports)
    ensures NoRepeats(g, Next(g, s, o))
  {
    if s.node == AtFetch {
      FetchKeepsNoRepeats(g, s.(visited := s.visited + 1), o);
    } else if s.node == AtPlan {
      ChosenAreUntried(g, s.fetches, o.plan);
    }
  }

  /** No probe is run twice, whatever the model asks for. */
  lemma {:induction false} NoProbeRunsTwice(g: Setting, oracles: seq<Oracle>)
    requires AllNamed(g, oracles)
    ensures NoRepeats(g, After(g, oracles))
    decreases |oracles|
  {
    if oracles != [] {
      var front := oracles[..|oracles| - 1];
      forall i | 0 <= i < |front| ensures Named(g, front[i].reports) {
        assert front[i] == oracles[i];
      }
      NoProbeRunsTwice(g, front);
      NextKeepsNoRepeats(g, After(g, front), oracles[|oracles| - 1]);
    }
  }

  // -------------------------------------------------------------------- why the graph ends

  /** Every wired probe has been attempted. */
  predicate Exhausted(g: Setting, fetches: seq<Fetched>) {
    forall p :: p in g.wired ==> Tried(fetches, p)
  }

  /** The verdict is the fold of the evidence gathered, and an unresolved one is final only in the
      third round or with every wired probe attempted. */
  ghost predicate Justified(g: Setting, s: State) {
    && (s.node in {AtPlan, AtFetch, AtNarrate, Done} ==> s.verdict == Some(g.judge(s.evidence)))
    && (s.node == AtFetch && s.chosen == [] ==> Exhausted(g, s.fetches))
    && (s.node in {AtInterpret, AtAnalyze} ==>
          s.fetches != [] && (s.fetches[|s.fetches| - 1].Nothing() ==> Exhausted(g, s.fetches)))
    && (s.node in {AtNarrate, Done} && Unresolved(s.verdict.value) ==>
          s.rounds >= MAX_ROUNDS || Exhausted(g, s.fetches))
  }

  /** A fetch of wired probes names at least one source. */
  lemma FetchNamesSomething(g: Setting, chosen: seq<Probe>, reports: Probe -> Report)
    requires chosen != [] && forall p :: p in chosen ==> p in g.wired
    ensures var ev := Gathered(Distinct(Runnable(g, chosen)), reports);
            !Fetched(SourcesOf(ev, true), SourcesOf(ev, false), Skipped(g, chosen)).Nothing()
  {
    var p, run := chosen[0], Distinct(Runnable(g, chosen));
    assert p in chosen;
    if Skips(g, p) {
      assert SourceOf(p) in Skipped(g, chosen);
    } else {
      assert p in run;
      var i :| 0 <= i < |run| && run[i] == p;
      var ev := Gathered(run, reports);
      assert ev[i] in ev && ev[i].source in SourcesOf(ev, ev[i].available);
    }
  }

  lemma FetchKeepsJustified(g: Setting, s: State, o: Oracle)
    requires s.node == AtFetch && Justified(g, s) && NoneOutside(g, s)
    ensures Justified(g, Fetch(g, s, o))
  {
    var run := Distinct(Runnable(g, s.chosen));
    var ev := Gathered(run, o.reports);
    var f := Fetched(SourcesOf(ev, true), SourcesOf(ev, false), Skipped(g, s.chosen));
    AttemptedGrows(s.fetches, f);
    if s.chosen != [] {
      FetchNamesSomething(g, s.chosen, o.reports);
    }
  }

  /** Only wired probes are ever chosen. */
  predicate NoneOutside(g: Setting, s: State) {
    s.node == AtFetch ==> forall p :: p in s.chosen ==> p in g.wired
  }

  lemma AnalyzeKeepsJustified(g: Setting, s: State)
    requires s.node == AtAnalyze && Justified(g, s)
    ensures Justified(g, Analyze(g, s))
  {
    if !WorthAnotherRound(s.fetches) && !s.fetches[|s.fetches| - 1].Nothing() {
      forall p | p in g.wired ensures Tried(s.fetches, p) {
        EveryProbeIsPlannable(p);
      }
    }
  }

  lemma NextKeepsJustified(g: Setting, s: State, o: Oracle)
    requires Justified(g, s) && NoneOutside(g, s)
    ensures Justified(g, Next(g, s, o)) && NoneOutside(g, Next(g, s, o))
  {
    var t := s.(visited := s.visited + 1);
    match s.node
    case AtPlan => ChosenAreUntried(g, s.fetches, o.plan);
    case AtFetch => FetchKeepsJustified(g, t, o);
    case AtAnalyze => AnalyzeKeepsJustified(g, t);
    case _ =>
  }

  /** The verdict never comes from the model: at every end it is the fold of the evidence, and the
      graph gives up on an order only after three rounds or with every wired probe attempted. */
  lemma {:induction false} EndsAreJustified(g: Setting, oracles: seq<Oracle>)
    ensures Justified(g, After(g, oracles)) && NoneOutside(g, After(g, oracles))
    decreases |oracles|
  {
    if oracles != [] {
      EndsAreJustified(g, oracles[..|oracles| - 1]);
      NextKeepsJustified(g, After(g, oracles[..|oracles| - 1]), oracles[|oracles| - 1]);
    }
  }

  // ------------------------------------------------------------------------ model outage

  /** The model answers nothing. */
  predicate Silent(o: Oracle) { o.plan.None? && o.claim.None? && !o.narrative }

  /** The wired probes not yet attempted. */
  function Left(g: Setting, fetches: seq<Fetched>): set<Probe> {
    set p | p in g.wired && !Tried(fetches, p)
  }

  lemma PrependDistinct(p: Probe, ps: seq<Probe>)
    requires NoDuplicates(ps) && p !in ps
    ensures NoDuplicates([p] + ps)
  {
    var qs := [p] + ps;
    forall i, j | 0 <= i < j < |qs| ensures qs[i] != qs[j] {
      assert qs[j] == ps[j - 1];
    }
  }

  lemma {:induction false} UntriedDistinct(ps: seq<Probe>, wired: set<Probe>, fetches: seq<Fetched>)
    requires NoDuplicates(ps)
    ensures NoDuplicates(Untried(ps, wired, fetches))
  {
    if ps != [] {
      var tail := ps[1..];
      assert forall k :: 0 <= k < |tail| ==> tail[k] == ps[k + 1];
      UntriedDistinct(tail, wired, fetches);
      PrependDistinct(ps[0], Untried(tail, wired, fetches));
    }
  }

  /** The chosen probes include all of a set, or are three different members of it. */
  predicate TakesAllOrThree(chosen: seq<Probe>, left: set<Probe>) {
    || (forall p :: p in left ==> p in chosen)
    || (|chosen| == 3 && NoDuplicates(chosen) && chosen[0] in left && chosen[1] in left && chosen[2] in left)
  }

  /** The fixed plan asks for every wired priority probe; when none is left it asks for all the wired
      probes left, or three of them. */
  lemma FallbackCovers(g: Setting, fetches: seq<Fetched>)
    ensures var chosen, left := Fallback(g, fetches), Left(g, fetches);
            && (forall p :: p in Priority(g.preDebit) && p in left ==> p in chosen)
            && ((forall p :: p in Priority(g.preDebit) ==> p !in left) ==> TakesAllOrThree(chosen, left))
  {
    var first := Untried(Priority(g.preDebit), g.wired, fetches);
    if first != [] {
      assert first[0] in first;
    } else {
      AllOrThree(g, fetches);
    }
  }

  lemma AllOrThree(g: Setting, fetches: seq<Fetched>)
    ensures TakesAllOrThree(FirstThree(Untried(PLANNABLE, g.wired, fetches)), Left(g, fetches))
  {
    PlannableDistinct();
    UntriedDistinct(PLANNABLE, g.wired, fetches);
    forall p | p in Left(g, fetches) ensures p in Untried(PLANNABLE, g.wired, fetches) {
      EveryProbeIsPlannable(p);
    }
    FirstThreeOf(Untried(PLANNABLE, g.wired, fetches), Left(g, fetches));
  }

  lemma PlannableDistinct()
    ensures NoDuplicates(PLANNABLE)
  {
  }

  lemma FirstThreeOf(ps: seq<Probe>, left: set<Probe>)
    requires NoDuplicates(ps) && forall p :: p in ps <==> p in left
    ensures TakesAllOrThree(FirstThree(ps), left)
  {
    if |ps| > 3 {
      assert ps[0] in ps && ps[1] in ps && ps[2] in ps;
    }
  }

  /** Wired probes left after each round without a model: none of the priority ones, then at most one,
      then none. */
  predicate Shrinks(g: Setting, rounds: nat, fetches: seq<Fetched>) {
    var left := Left(g, fetches);
    && (rounds >= 1 ==> forall p :: p in Priority(g.preDebit) ==> p !in left)
    && (rounds >= 2 ==> |left| <= 1)
    && (rounds >= 3 ==> left == {})
  }

  lemma FourBesidesPriority(g: Setting, left: set<Probe>)
    requires forall p :: p in Priority(g.preDebit) ==> p !in left
    ensures |left| <= 4
  {
    var others := {Downtime, History, Settlement, BankPrior};
    var first := Priority(g.preDebit);
    assert Attempts in first && Payment in first && CustomerMessages in first;
    assert Attempts !in left && Payment !in left && CustomerMessages !in left;
    forall p | p in left ensures p in others {
      assert p == Downtime || p == History || p == Settlement || p == BankPrior;
    }
    SubsetCardinality(left, others);
  }

  /** Taking all of a set, or three of its members, leaves nothing or three fewer. */
  lemma TakingThree(before: set<Probe>, after: set<Probe>, chosen: seq<Probe>)
    requires forall p :: p in after ==> p in before && p !in chosen
    requires TakesAllOrThree(chosen, before)
    ensures after == {} || |after| + 3 <= |before|
  {
    if exists p :: p in before && p !in chosen {
      var three := {chosen[0], chosen[1], chosen[2]};
      assert chosen[0] in chosen && chosen[1] in chosen && chosen[2] in chosen && |three| == 3;
      SubsetCardinality(after, before - three);
    } else {
      assert after == {};
    }
  }

  lemma FetchShrinks(g: Setting, s: State, o: Oracle)
    requires s.chosen == Fallback(g, s.fetches) && Shrinks(g, s.rounds, s.fetches) && Named(g, o.reports)
    ensures Shrinks(g, s.rounds + 1, Fetch(g, s, o).fetches)
  {
    var later := Fetch(g, s, o).fetches;
    var before, after, chosen := Left(g, s.fetches), Left(g, later), s.chosen;
    assert (forall p :: p in after ==> p in before && p !in chosen) by {
      FetchTriesChosen(g, s, o);
    }
    FallbackCovers(g, s.fetches);
    LeftShrinks(g, s.rounds, before, after, chosen);
  }

  lemma LeftShrinks(g: Setting, rounds: nat, before: set<Probe>, after: set<Probe>, chosen: seq<Probe>)
    requires forall p :: p in after ==> p in before && p !in chosen
    requires forall p :: p in Priority(g.preDebit) && p in before ==> p in chosen
    requires rounds >= 1 ==>
               && (forall p :: p in Priority(g.preDebit) ==> p !in before)
               && TakesAllOrThree(chosen, before)
    requires rounds >= 2 ==> |before| <= 1
    ensures forall p :: p in Priority(g.preDebit) ==> p !in after
    ensures rounds >= 1 ==> |after| <= 1
    ensures rounds >= 2 ==> after == {}
  {
    if rounds >= 1 {
      FourBesidesPriority(g, before);
      TakingThree(before, after, chosen);
    }
  }

  ghost predicate SilentRun(g: Setting, s: State) {
    && s.answered == 0
    && Shrinks(g, s.rounds, s.fetches)
    && (s.node == AtFetch ==> s.chosen == Fallback(g, s.fetches))
  }

  lemma NextKeepsSilentRun(g: Setting, s: State, o: Oracle)
    requires SilentRun(g, s) && Named(g, o.reports) && Silent(o)
    ensures SilentRun(g, Next(g, s, o))
  {
    if s.node == AtFetch {
      FetchShrinks(g, s.(visited := s.visited + 1), o);
    }
  }

  lemma {:induction false} SilentRuns(g: Setting, oracles: seq<Oracle>)
    requires AllNamed(g, oracles) && forall i :: 0 <= i < |oracles| ==> Silent(oracles[i])
    ensures SilentRun(g, After(g, oracles))
    decreases |oracles|
  {
    if oracles != [] {
      var front := oracles[..|oracles| - 1];
      forall i | 0 <= i < |front| ensures Named(g, front[i].reports) && Silent(front[i]) {
        assert front[i] == oracles[i];
      }
      SilentRuns(g, front);
      NextKeepsSilentRun(g, After(g, front), oracles[|oracles| - 1]);
    }
  }

  /** Without a model the graph still tries everything: an order it leaves unresolved has had every
      wired probe attempted. */
  lemma OutageTriesEverything(g: Setting, oracles: seq<Oracle>)
    requires AllNamed(g, oracles) && forall i :: 0 <= i < |oracles| ==> Silent(oracles[i])
    ensures var s := After(g, oracles);
            && s.answered == 0
            && (s.node == Done && Unresolved(g.judge(s.evidence)) ==> Exhausted(g, s.fetches))
  {
    SilentRuns(g, oracles);
    EndsAreJustified(g, oracles);
    var s := After(g, oracles);
    if s.rounds >= MAX_ROUNDS {
      forall p | p in g.wired ensures Tried(s.fetches, p) {
        assert Tried(s.fetches, p) || p in Left(g, s.fetches);
      }
    }
  }

  // ---------------------------------------------------------------------- misnamed probes

  lemma OnlyName(e: Evidence)
    ensures SourcesOf([e], e.available) == [e.source] && SourcesOf([e], !e.available) == []
  {
    assert [e][1..] == [];
  }

  /** A fetch of one wired probe runs it, and names exactly the source it reported. */
  lemma FetchOfOne(g: Setting, s: State, o: Oracle, p: Probe)
    requires p in g.wired && !Skips(g, p) && s.chosen == [p]
    ensures var t := Fetch(g, s, o);
            && t.runs == s.runs + [p] && |t.fetches| == |s.fetches| + 1
            && AttemptedOf(t.fetches) == AttemptedOf(s.fetches) + {o.reports(p).evidence.source}
            && !t.fetches[|t.fetches| - 1].Nothing()
  {
    var run := Distinct(Runnable(g, s.chosen));
    assert [p][1..] == [] && [p][..0] == [];
    assert Runnable(g, [p]) == [p] && Distinct([p]) == [p];
    var ev := Gathered(run, o.reports);
    var f := Fetched(SourcesOf(ev, true), SourcesOf(ev, false), Skipped(g, s.chosen));
    assert ev == [o.reports(p).evidence];
    assert f.skipped == [];
    OnlyName(ev[0]);
    assert f.Names() == {ev[0].source};
    AttemptedGrows(s.fetches, f);
  }

  /** The name is what counts: a probe that has just run alone is attempted exactly when it reported
      under its own name, and a model that asks for it again gets it exactly when it did not. */
  lemma RunCountsIffNamed(g: Setting, s: State, o: Oracle, p: Probe)
    requires p in g.wired && !Skips(g, p) && s.chosen == [p] && !Tried(s.fetches, p)
    ensures var t := Fetch(g, s, o);
            && (Tried(t.fetches, p) <==> o.reports(p).evidence.source == SourceOf(p))
            && (p in Chosen(g, t.fetches, Some([p])) <==> o.reports(p).evidence.source != SourceOf(p))
  {
    FetchOfOne(g, s, o, p);
    ChosenAreUntried(g, Fetch(g, s, o).fetches, Some([p]));
    AskedAgain(g, Fetch(g, s, o).fetches, p);
  }

  lemma AskedAgain(g: Setting, fetches: seq<Fetched>, p: Probe)
    requires p in g.wired
    ensures !Tried(fetches, p) ==> Chosen(g, fetches, Some([p])) == [p]
  {
    assert [p][1..] == [];
    assert Untried([p], g.wired, fetches) == if Tried(fetches, p) then [] else [p];
  }

  /** A run in which every node gets the same answers. */
  lemma {:induction false} RepeatedRun(g: Setting, o: Oracle, n: nat, step: State -> State)
    requires forall s :: step(s) == Next(g, s, o)
    ensures After(g, seq(n, _ => o)) == Iterate(step, START, n)
  {
    if n == 0 {
      assert seq(n, _ => o) == [];
    } else {
      RepeatedRun(g, o, n - 1, step);
      assert seq(n, _ => o)[..n - 1] == seq(n - 1, _ => o);
    }
  }

  /** The probe can run, reports under another name, and is what the model asks for. */
  predicate AsksMisnamed(g: Setting, o: Oracle, p: Probe) {
    p in g.wired && !Skips(g, p) && o.reports(p).evidence.source != SourceOf(p) && o.plan == Some([p])
  }

  /** The graph is about to plan, and has run the probe in each of k rounds and nothing else. */
  predicate PlanningAgain(s: State, p: Probe, k: nat) {
    s.node == AtPlan && s.runs == seq(k, _ => p) && !Tried(s.fetches, p) && s.rounds == k
  }

  /** It has just run it once more. */
  predicate RanAgain(s: State, p: Probe, k: nat) {
    && s.node == AtInterpret && s.runs == seq(k, _ => p) && !Tried(s.fetches, p) && s.rounds == k
    && s.fetches != [] && !s.fetches[|s.fetches| - 1].Nothing()
  }

  /** It is about to run it. */
  predicate FetchingAgain(s: State, p: Probe, k: nat) {
    && s.node == AtFetch && s.chosen == [p] && s.runs == seq(k, _ => p) && !Tried(s.fetches, p) && s.rounds == k
  }

  lemma MisnamedPlan(g: Setting, s: State, o: Oracle, p: Probe, k: nat)
    requires AsksMisnamed(g, o, p) && PlanningAgain(s, p, k)
    ensures FetchingAgain(Next(g, s, o), p, k)
  {
    AskedAgain(g, s.fetches, p);
  }

  lemma MisnamedFetch(g: Setting, s: State, o: Oracle, p: Probe, k: nat)
    requires AsksMisnamed(g, o, p) && FetchingAgain(s, p, k)
    ensures RanAgain(Next(g, s, o), p, k + 1)
  {
    FetchOfOne(g, s.(visited := s.visited + 1), o, p);
    assert seq(k + 1, _ => p) == seq(k, _ => p) + [p];
  }

  lemma MisnamedRound(g: Setting, s: State, o: Oracle, p: Probe, k: nat)
    requires AsksMisnamed(g, o, p) && PlanningAgain(s, p, k)
    ensures RanAgain(Next(g, Next(g, s, o), o), p, k + 1)
  {
    MisnamedPlan(g, s, o, p, k);
    MisnamedFetch(g, Next(g, s, o), o, p, k);
  }

  /** And an unresolved graph then plans again. */
  lemma MisnamedLoops(g: Setting, s: State, o: Oracle, p: Probe, k: nat)
    requires RanAgain(s, p, k) && k < MAX_ROUNDS && forall evidence :: Unresolved(g.judge(evidence))
    ensures PlanningAgain(Next(g, Next(g, s, o), o), p, k)
  {
    EveryProbeIsPlannable(p);
    var u := Next(g, s, o);
    assert u.node == AtAnalyze && u.fetches == s.fetches;
    assert WorthAnotherRound(u.fetches);
  }

  /** What the two lemmas above say of a step. */
  ghost predicate LoopsOn(step: State -> State, p: Probe) {
    && PlanningAgain(step(START), p, 0)
    && (forall s, k: nat :: PlanningAgain(s, p, k) ==> RanAgain(step(step(s)), p, k + 1))
    && (forall s, k: nat :: RanAgain(s, p, k) && k < MAX_ROUNDS ==> PlanningAgain(step(step(s)), p, k))
  }

  lemma {:induction false} PlansAgain(step: State -> State, p: Probe, k: nat)
    requires LoopsOn(step, p) && k < MAX_ROUNDS
    ensures PlanningAgain(Iterate(step, START, 4 * k + 1), p, k)
  {
    if k == 0 {
      assert Iterate(step, START, 4 * k) == START;
    } else {
      PlansAgain(step, p, k - 1);
      RunsAgain(step, p, k);
      PlansAfterRun(step, p, k);
    }
  }

  lemma PlansAfterRun(step: State -> State, p: Probe, k: nat)
    requires 0 < k < MAX_ROUNDS && LoopsOn(step, p) && RanAgain(Iterate(step, START, 4 * k - 1), p, k)
    ensures PlanningAgain(Iterate(step, START, 4 * k + 1), p, k)
  {
    TwoMore(step, START, 4 * k - 1);
  }

  lemma RunsAgain(step: State -> State, p: Probe, k: nat)
    requires k > 0 && LoopsOn(step, p) && PlanningAgain(Iterate(step, START, 4 * k - 3), p, k - 1)
    ensures RanAgain(Iterate(step, START, 4 * k - 1), p, k)
  {
    TwoMore(step, START, 4 * k - 3);
  }

  lemma LoopRunsAgain(step: State -> State, p: Probe, k: nat)
    requires 1 <= k <= MAX_ROUNDS && LoopsOn(step, p)
    ensures Iterate(step, START, 4 * k - 1).runs == seq(k, _ => p)
  {
    PlansAgain(step, p, k - 1);
    RunsAgain(step, p, k);
  }

  lemma MisnamedStepLoops(g: Setting, o: Oracle, p: Probe, step: State -> State)
    requires AsksMisnamed(g, o, p) && forall evidence :: Unresolved(g.judge(evidence))
    requires forall s :: step(s) == Next(g, s, o)
    ensures LoopsOn(step, p)
  {
    forall s, k: nat | PlanningAgain(s, p, k) ensures RanAgain(step(step(s)), p, k + 1) {
      MisnamedRound(g, s, o, p, k);
    }
    forall s, k: nat | RanAgain(s, p, k) && k < MAX_ROUNDS ensures PlanningAgain(step(step(s)), p, k) {
      MisnamedLoops(g, s, o, p, k);
    }
  }

  lemma LoopingStep(g: Setting, o: Oracle, p: Probe) returns (step: State -> State)
    requires AsksMisnamed(g, o, p) && forall evidence :: Unresolved(g.judge(evidence))
    ensures LoopsOn(step, p) && forall n: nat :: After(g, seq(n, _ => o)) == Iterate(step, START, n)
  {
    step := s => Next(g, s, o);
    MisnamedStepLoops(g, o, p, step);
    forall n: nat ensures After(g, seq(n, _ => o)) == Iterate(step, START, n) {
      RepeatedRun(g, o, n, step);
    }
  }

  /** As long as the fold stays unresolved, a probe that reports under another name runs in every round
      for which the model asks for it, up to the last. */
  lemma MisnamedProbeRunsAgain(g: Setting, o: Oracle, p: Probe, k: nat)
    requires AsksMisnamed(g, o, p) && 1 <= k <= MAX_ROUNDS && forall evidence :: Unresolved(g.judge(evidence))
    ensures After(g, seq(4 * k - 1, _ => o)).runs == seq(k, _ => p)
  {
    var step := LoopingStep(g, o, p);
    LoopRunsAgain(step, p, k);
  }

  ghost predicate AllReport(oracles: seq<Oracle>, reports: Probe -> Report) {
    forall i :: 0 <= i < |oracles| ==> oracles[i].reports == reports
  }

  const OPEN := Fold.VerdictResult("", Verdict.Unresolved, 0, Escalate, [], 0, 0, None, false)

  /** Exactly when no probe ever runs twice: for probes that report the same in every round, no fold and
      no model makes a run with a repeat if and only if every probe that can run reports under its own
      name. */
  lemma NeverTwiceIffNamed(g: Setting, reports: Probe -> Report)
    ensures (forall judge, oracles :: AllReport(oracles, reports)
               ==> NoDuplicates(After(g.(judge := judge), oracles).runs))
            <==> Named(g, reports)
  {
    if Named(g, reports) {
      forall judge, oracles | AllReport(oracles, reports)
        ensures NoDuplicates(After(g.(judge := judge), oracles).runs)
      {
        NoProbeRunsTwice(g.(judge := judge), oracles);
      }
    } else {
      var p :| p in g.wired && !Skips(g, p) && reports(p).evidence.source != SourceOf(p);
      RepeatExists(g, reports, p);
    }
  }

  lemma RepeatExists(g: Setting, reports: Probe -> Report, p: Probe)
    requires p in g.wired && !Skips(g, p) && reports(p).evidence.source != SourceOf(p)
    ensures exists judge, oracles :: AllReport(oracles, reports)
              && !NoDuplicates(After(g.(judge := judge), oracles).runs)
  {
    var judge: seq<Evidence> -> Fold.VerdictResult := evidence => OPEN;
    var o := Oracle(Some([p]), reports, None, "", false);
    var k: nat :| k == 2;
    var oracles := seq(4 * k - 1, _ => o);
    MisnamedProbeRunsAgain(g.(judge := judge), o, p, k);
    assert AllReport(oracles, reports);
    var runs := seq(k, _ => p);
    assert runs[0] == runs[1];
    assert !NoDuplicates(After(g.(judge := judge), oracles).runs);
  }

  // ---------------------------------------------------------------- with the project's fold

  /** The fold of one order at one moment, as the resolver calls it. */
  function FoldJudge(obs: seq<Observation>, now: int, orderId: string,
                     cfg: Fold.FoldConfig): seq<Evidence> -> Fold.VerdictResult
    requires cfg.Valid()
  {
    evidence => Fold.FoldOf(obs, now, orderId, evidence, cfg)
  }

  /** Without evidence the precheck settles everything but the open questions: it goes on exactly when
      the rules say UNRESOLVED or PENDING_TAT, or the customer failed for an unclassified reason. */
  lemma PrecheckSettlesAllBut(st: Fold.Order, now: int, cfg: Fold.FoldConfig)
    requires cfg.Valid()
    ensures var r := Fold.Judge(st, now, [], cfg);
            r.verdict != Verdict.Unresolved && Fold.Degrade(r.confidence, []) >= PRECHECK_CONFIDENCE
            <==> r.verdict != Verdict.Unresolved && r.verdict != PendingTat
                 && Fold.R14_CustomerUnclassifiedReason !in r.rules
  {
    var byOrder := Fold.JudgeOrder(st, now, [], cfg);
    if byOrder.None? {
      FailureLadderWithoutEvidence(Fold.LatestFailure(Fold.WithStatus(st.payments, PaymentStatus.Failed)), now, cfg);
    }
  }

  lemma FailureLadderWithoutEvidence(p: Fold.Payment, now: int, cfg: Fold.FoldConfig)
    requires cfg.Valid()
    ensures var r := Fold.JudgeFailure(p, now, [], cfg);
            r.confidence >= PRECHECK_CONFIDENCE
            <==> r.verdict != Verdict.Unresolved && r.verdict != PendingTat
                 && Fold.R14_CustomerUnclassifiedReason !in r.rules
  {
    assert Fold.ClaimAssessment([], p).None?;
  }

  lemma SettledIsSure(st: Fold.Order, now: int, cfg: Fold.FoldConfig)
    requires cfg.Valid() && Fold.Judge(st, now, [], cfg).verdict == OrderSettled
    ensures Fold.Degrade(Fold.Judge(st, now, [], cfg).confidence, []) == 9_900
  {
  }

  /** An order with a captured payment never reaches the model, however many siblings failed. */
  lemma CaptureAsksNoModel(obs: seq<Observation>, id: string, amount: nat, now: int, orderId: string,
                           cfg: Fold.FoldConfig, g: Setting, oracles: seq<Oracle>)
    requires cfg.Valid() && id != "" && amount > 0 && g.judge == FoldJudge(obs, now, orderId, cfg)
    requires FoldTheorems.CommonAmount(obs, amount) && FoldTheorems.LastStatusIsCapture(CanonicalOrder(obs), id)
    ensures var s := After(g, oracles);
            && s.asked == 0
            && (oracles != [] ==> s.node == Done && s.verdict.Some? && s.verdict.value.verdict == OrderSettled)
  {
    FoldTheorems.CaptureSettles(obs, id, amount, now, orderId, [], cfg);
    CapturedPrecheck(obs, now, orderId, cfg);
    PrecheckAsksNoModel(g, oracles);
  }

  lemma CapturedPrecheck(obs: seq<Observation>, now: int, orderId: string, cfg: Fold.FoldConfig)
    requires cfg.Valid() && Fold.FoldOf(obs, now, orderId, [], cfg).verdict == OrderSettled
    ensures Fold.FoldOf(obs, now, orderId, [], cfg).confidence == 9_900
  {
    if obs != [] {
      SettledIsSure(Fold.StateOf(obs), now, cfg);
    }
  }
}
