/** The strategist graph of services/strategist/graph.py: assess and probe in turns, then compose,
    against a model and probes that may answer anything. */
module Strategist {
  import opened Common
  import opened Verdicts
  import Fold
  import Gate
  import Pipeline

  const MAX_TURNS := 6

  /** The two probes, and any other source evidence may carry. */
  datatype Topic = Downtime | History | Elsewhere

  /** A piece of evidence: `outage` is None when its value is not a dictionary. */
  datatype Outage = Outage(active: bool, methodScoped: bool)
  datatype Finding = Finding(topic: Topic, available: bool, outage: Option<Outage>)

  datatype Choice = ProbeDowntime | ProbeHistory | ComposeNow

  /** What the outside world answers during one node: the model's assessment (None when it is
      unavailable), whether the token or latency budget is spent, the finding of each probe, and the
      model's composition. */
  datatype Oracle = Oracle(assessment: Option<Choice>, spent: bool, downtime: Finding, history: Finding,
                           reply: Option<Pipeline.Composition>)

  datatype Setting = Setting(verdict: Fold.VerdictResult, version: Gate.Version, fallbackVariables: seq<string>,
                             evidence: seq<Finding>)

  datatype Node = AtAssess | AtDowntime | AtHistory | AtCompose | Done

  /** `probes` lists the probe nodes visited, in order. */
  datatype State = State(node: Node, visited: nat, turns: nat, asked: nat, probes: seq<Topic>,
                         evidence: seq<Finding>, intent: Option<Gate.RecoveryIntent>)

  function Start(g: Setting): State { State(AtAssess, 0, 0, 0, [], g.evidence, None) }

  predicate Probed(evidence: seq<Finding>, t: Topic) {
    exists i :: 0 <= i < |evidence| && evidence[i].topic == t
  }

  /** The first available dictionary reported about downtime. */
  function KnownOutage(evidence: seq<Finding>): Option<Outage> {
    if evidence == [] then None
    else if evidence[0].topic == Downtime && evidence[0].available && evidence[0].outage.Some? then evidence[0].outage
    else KnownOutage(evidence[1..])
  }

  predicate BankWide(evidence: seq<Finding>) {
    var known := KnownOutage(evidence);
    known.Some? && known.value.active && !known.value.methodScoped
  }

  function Route(turns: nat, spent: bool, next: Choice, evidence: seq<Finding>): Node {
    if turns >= MAX_TURNS || spent then AtCompose
    else if next == ProbeDowntime && !Probed(evidence, Downtime) then AtDowntime
    else if next == ProbeHistory then
      if Probed(evidence, History) || BankWide(evidence) then AtCompose else AtHistory
    else AtCompose
  }

  function Next(g: Setting, s: State, o: Oracle): State {
    var t := s.(visited := s.visited + 1);
    match s.node
    case AtAssess =>
      var choice := if o.assessment.Some? then o.assessment.value else ComposeNow;
      t.(turns := s.turns + 1, asked := s.asked + 1, node := Route(s.turns + 1, o.spent, choice, s.evidence))
    case AtDowntime => t.(evidence := s.evidence + [o.downtime], probes := s.probes + [Downtime], node := AtAssess)
    case AtHistory => t.(evidence := s.evidence + [o.history], probes := s.probes + [History], node := AtAssess)
    case AtCompose =>
      t.(asked := s.asked + 1, node := Done,
         intent := Some(Pipeline.StrategistIntent(o.reply, g.verdict, g.fallbackVariables, g.version)))
    case Done => s
  }

  function After(g: Setting, oracles: seq<Oracle>): State
    decreases |oracles|
  {
    if oracles == [] then Start(g)
    else Next(g, After(g, oracles[..|oracles| - 1]), oracles[|oracles| - 1])
  }

  // ------------------------------------------------------------------------- boundedness

  /** Every turn is one assessment and, but for the last, one probe. */
  predicate Bounded(g: Setting, s: State) {
    && s.turns <= MAX_TURNS
    && |s.probes| == (if s.node == AtAssess || s.turns == 0 then s.turns else s.turns - 1)
    && match s.node
       case AtAssess => s.turns < MAX_TURNS && s.visited == 2 * s.turns && s.asked == s.turns && s.intent == None
       case AtDowntime => 1 <= s.turns < MAX_TURNS && s.visited == 2 * s.turns - 1 && s.asked == s.turns
         && s.intent == None
       case AtHistory => 1 <= s.turns < MAX_TURNS && s.visited == 2 * s.turns - 1 && s.asked == s.turns
         && s.intent == None
       case AtCompose => 1 <= s.turns && s.visited == 2 * s.turns - 1 && s.asked == s.turns && s.intent == None
       case Done => 1 <= s.turns && s.visited == 2 * s.turns && s.asked == s.turns + 1 && s.intent.Some?
  }

  lemma NextKeepsBounded(g: Setting, s: State, o: Oracle)
    requires Bounded(g, s)
    ensures Bounded(g, Next(g, s, o))
    ensures s.node != Done ==> Next(g, s, o).visited == s.visited + 1
  {
  }

  lemma {:induction false} RunIsBounded(g: Setting, oracles: seq<Oracle>)
    ensures var s := After(g, oracles); Bounded(g, s) && (s.node == Done || s.visited == |oracles|)
    decreases |oracles|
  {
    if oracles != [] {
      RunIsBounded(g, oracles[..|oracles| - 1]);
      NextKeepsBounded(g, After(g, oracles[..|oracles| - 1]), oracles[|oracles| - 1]);
    }
  }

  /** Whatever the model and the probes answer, an intent is composed within twice MAX_TURNS nodes, and
      the model is asked at most seven times. The recursion limit of 2 * MAX_TURNS + 4 is never met. */
  lemma StrategistComposes(g: Setting, oracles: seq<Oracle>)
    ensures var s := After(g, oracles);
            && s.visited <= 2 * MAX_TURNS && s.turns <= MAX_TURNS && s.asked <= MAX_TURNS + 1
            && (|oracles| >= 2 * MAX_TURNS ==> s.node == Done)
            && (s.node == Done <==> s.intent.Some?)
  {
    RunIsBounded(g, oracles);
  }

  /** The intent is always a link, never surer than the verdict it answers. */
  lemma {:induction false} IntentNeverSurerThanVerdict(g: Setting, oracles: seq<Oracle>)
    ensures var s := After(g, oracles);
            s.intent.Some? ==> s.intent.value.action == SendRecoveryLink
                               && s.intent.value.confidence <= g.verdict.confidence
                               && s.intent.value.category == Gate.ServiceImplicit
    decreases |oracles|
  {
    if oracles != [] {
      IntentNeverSurerThanVerdict(g, oracles[..|oracles| - 1]);
    }
  }

  // --------------------------------------------------------------------- bank-wide outage

  lemma {:induction false} KnownOutageOf(evidence: seq<Finding>, f: Finding)
    ensures KnownOutage(evidence + [f]) ==
            if KnownOutage(evidence).Some? then KnownOutage(evidence)
            else if f.topic == Downtime && f.available && f.outage.Some? then f.outage else None
  {
    if evidence != [] {
      KnownOutageOf(evidence[1..], f);
      assert (evidence + [f])[1..] == evidence[1..] + [f];
    } else {
      assert evidence + [f] == [f] && [f][1..] == [];
    }
  }

  /** An outage is known to be bank-wide exactly when the first dictionary a downtime probe answered with says that
      one is on and does not narrow it to a method. */
  lemma {:induction false} BankWideIff(evidence: seq<Finding>)
    ensures BankWide(evidence) <==>
            exists i :: && 0 <= i < |evidence| && SaysOutage(evidence[i])
                        && evidence[i].outage.value.active && !evidence[i].outage.value.methodScoped
                        && forall j :: 0 <= j < i ==> !SaysOutage(evidence[j])
  {
    if evidence != [] {
      BankWideIff(evidence[1..]);
      assert forall i :: 0 < i < |evidence| ==> evidence[i] == evidence[1..][i - 1];
      if !SaysOutage(evidence[0]) && BankWide(evidence) {
        var i :| && 0 <= i < |evidence[1..]| && SaysOutage(evidence[1..][i])
                 && evidence[1..][i].outage.value.active && !evidence[1..][i].outage.value.methodScoped
                 && forall j :: 0 <= j < i ==> !SaysOutage(evidence[1..][j]);
        assert SaysOutage(evidence[i + 1]);
      }
    }
  }

  predicate SaysOutage(f: Finding) { f.topic == Downtime && f.available && f.outage.Some? }

  lemma KnownOutageRepeats(evidence: seq<Finding>, f: Finding)
    ensures KnownOutage(evidence + [f] + [f]) == KnownOutage(evidence + [f])
  {
    KnownOutageOf(evidence, f);
    KnownOutageOf(evidence + [f], f);
  }

  /** After a bank-wide outage is known, no later finding hides it and history is never probed again:
      there is no other rail to find. */
  lemma {:induction false} BankWideSkipsHistory(g: Setting, oracles: seq<Oracle>, k: nat)
    requires k <= |oracles| && BankWide(After(g, oracles[..k]).evidence) && After(g, oracles[..k]).node != AtHistory
    ensures var s := After(g, oracles);
            && BankWide(s.evidence) && s.node != AtHistory
            && |After(g, oracles[..k]).probes| <= |s.probes|
            && forall i :: |After(g, oracles[..k]).probes| <= i < |s.probes| ==> s.probes[i] == Downtime
    decreases |oracles|
  {
    if k == |oracles| {
      assert oracles[..k] == oracles;
    } else {
      var front := oracles[..|oracles| - 1];
      assert front[..k] == oracles[..k];
      BankWideSkipsHistory(g, front, k);
      var s := After(g, front);
      KnownOutageOf(s.evidence, oracles[|oracles| - 1].downtime);
    }
  }

  // -------------------------------------------------------------------------- three turns

  /** Probes that report under their own names. */
  ghost predicate AllNamed(oracles: seq<Oracle>) {
    forall i :: 0 <= i < |oracles| ==> oracles[i].downtime.topic == Downtime && oracles[i].history.topic == History
  }

  predicate AtMostTwo(probes: seq<Topic>) {
    probes == [] || probes == [Downtime] || probes == [History] || probes == [Downtime, History]
      || probes == [History, Downtime]
  }

  /** Probes that ran have been probed, none of them twice, and the node about to run has not. */
  predicate ProbesOnce(s: State) {
    && AtMostTwo(s.probes)
    && (forall i :: 0 <= i < |s.probes| ==> Probed(s.evidence, s.probes[i]))
    && (s.node == AtDowntime ==> !Probed(s.evidence, Downtime))
    && (s.node == AtHistory ==> !Probed(s.evidence, History))
  }

  lemma ProbedGrows(evidence: seq<Finding>, f: Finding, t: Topic)
    ensures Probed(evidence + [f], t) <==> Probed(evidence, t) || f.topic == t
  {
    var after := evidence + [f];
    if Probed(evidence, t) {
      var i :| 0 <= i < |evidence| && evidence[i].topic == t;
      assert after[i].topic == t;
    } else if f.topic == t {
      assert after[|evidence|].topic == t;
    }
  }

  lemma NextProbesOnce(g: Setting, s: State, o: Oracle)
    requires ProbesOnce(s) && o.downtime.topic == Downtime && o.history.topic == History
    ensures ProbesOnce(Next(g, s, o))
  {
    if s.node == AtDowntime || s.node == AtHistory {
      var topic := if s.node == AtDowntime then Downtime else History;
      var f := if s.node == AtDowntime then o.downtime else o.history;
      var t := Next(g, s, o);
      assert topic !in s.probes;
      ProbedGrows(s.evidence, f, topic);
      forall i | 0 <= i < |t.probes| ensures Probed(t.evidence, t.probes[i]) {
        ProbedGrows(s.evidence, f, t.probes[i]);
      }
      OnceMore(s.probes, topic);
    }
  }

  lemma OnceMore(probes: seq<Topic>, t: Topic)
    requires AtMostTwo(probes) && t !in probes && t != Elsewhere
    ensures AtMostTwo(probes + [t])
  {
    assert Downtime in [Downtime] && History in [History];
    assert Downtime in [Downtime, History] && History in [Downtime, History];
    assert Downtime in [History, Downtime] && History in [History, Downtime];
    assert [] + [t] == [t] && [Downtime] + [t] == [Downtime, t] && [History] + [t] == [History, t];
  }

  lemma {:induction false} RunProbesOnce(g: Setting, oracles: seq<Oracle>)
    requires AllNamed(oracles)
    ensures ProbesOnce(After(g, oracles))
    decreases |oracles|
  {
    if oracles != [] {
      RunProbesOnce(g, oracles[..|oracles| - 1]);
      NextProbesOnce(g, After(g, oracles[..|oracles| - 1]), oracles[|oracles| - 1]);
    }
  }

  /** When the probes report under their own names, there are at most three turns and six nodes: one to
      learn of an outage, one to learn the customer's history, one to compose. */
  lemma NamedProbesTakeThreeTurns(g: Setting, oracles: seq<Oracle>)
    requires AllNamed(oracles)
    ensures var s := After(g, oracles);
            s.turns <= 3 && s.visited <= 6 && (|oracles| >= 6 ==> s.node == Done)
  {
    RunProbesOnce(g, oracles);
    RunIsBounded(g, oracles);
  }

  // ---------------------------------------------------------------------- misnamed probes

  /** A state in which the model asks, within budget, for a probe that may run and that the evidence will
      let run again afterwards: a misnamed downtime probe, or a misnamed history probe that reports no
      bank-wide outage. */
  predicate Looping(s: State, o: Oracle) {
    && s.node == AtAssess && !o.spent
    && ((o.assessment == Some(ProbeDowntime) && !Probed(s.evidence, Downtime) && o.downtime.topic != Downtime)
        || (o.assessment == Some(ProbeHistory) && !Probed(s.evidence, History) && o.history.topic != History
            && !BankWide(s.evidence) && !BankWide(s.evidence + [o.history])))
  }

  lemma LoopStep(g: Setting, s: State, o: Oracle)
    requires Looping(s, o) && s.turns + 1 < MAX_TURNS
    ensures var t := Next(g, Next(g, s, o), o); Looping(t, o) && t.turns == s.turns + 1
  {
    ProbedGrows(s.evidence, o.downtime, Downtime);
    ProbedGrows(s.evidence, o.history, History);
    KnownOutageRepeats(s.evidence, o.history);
  }

  lemma OneMoreAnswer(g: Setting, prefix: seq<Oracle>, o: Oracle, n: nat)
    ensures After(g, prefix + seq(n + 1, _ => o)) == Next(g, After(g, prefix + seq(n, _ => o)), o)
  {
    var long := prefix + seq(n + 1, _ => o);
    assert long[..|long| - 1] == prefix + seq(n, _ => o);
  }

  lemma TwoMoreAnswers(g: Setting, prefix: seq<Oracle>, o: Oracle, n: nat)
    ensures After(g, prefix + seq(n + 2, _ => o)) == Next(g, Next(g, After(g, prefix + seq(n, _ => o)), o), o)
  {
    OneMoreAnswer(g, prefix, o, n + 1);
    OneMoreAnswer(g, prefix, o, n);
  }

  /** From a looping state every turn is spent. */
  lemma {:induction false} LoopRuns(g: Setting, prefix: seq<Oracle>, o: Oracle, k: nat)
    requires Looping(After(g, prefix), o) && After(g, prefix).turns + k < MAX_TURNS
    ensures var s := After(g, prefix + seq(2 * k, _ => o)); Looping(s, o) && s.turns == After(g, prefix).turns + k
  {
    if k == 0 {
      assert prefix + seq(2 * k, _ => o) == prefix;
    } else {
      LoopRuns(g, prefix, o, k - 1);
      TwoMoreAnswers(g, prefix, o, 2 * k - 2);
      LoopStep(g, After(g, prefix + seq(2 * k - 2, _ => o)), o);
    }
  }

  lemma LoopReachesBound(g: Setting, prefix: seq<Oracle>, o: Oracle)
    requires Looping(After(g, prefix), o) && After(g, prefix).turns < MAX_TURNS
    ensures var n := 2 * (MAX_TURNS - After(g, prefix).turns); After(g, prefix + seq(n, _ => o)).turns == MAX_TURNS
  {
    var k := MAX_TURNS - After(g, prefix).turns - 1;
    LoopRuns(g, prefix, o, k);
    LastTwoAnswers(g, prefix, o, 2 * k);
  }

  lemma LastTwoAnswers(g: Setting, prefix: seq<Oracle>, o: Oracle, n: nat)
    requires var s := After(g, prefix + seq(n, _ => o)); s.node == AtAssess && s.turns == MAX_TURNS - 1
    ensures After(g, prefix + seq(n + 2, _ => o)).turns == MAX_TURNS
  {
    TwoMoreAnswers(g, prefix, o, n);
    LastTurn(g, After(g, prefix + seq(n, _ => o)), o);
  }

  lemma LastTurn(g: Setting, s: State, o: Oracle)
    requires s.node == AtAssess && s.turns == MAX_TURNS - 1
    ensures Next(g, Next(g, s, o), o).turns == MAX_TURNS
  {
  }

  /** A misnamed downtime probe, or a misnamed history probe that reports no bank-wide outage, spends
      every turn of a model that keeps asking for it. */
  lemma MisnamedProbeUsesEveryTurn(g: Setting, o: Oracle)
    requires Looping(Start(g), o)
    ensures After(g, seq(2 * MAX_TURNS, _ => o)).turns == MAX_TURNS
  {
    LoopReachesBound(g, [], o);
    assert [] + seq(2 * MAX_TURNS, _ => o) == seq(2 * MAX_TURNS, _ => o);
  }

  /** The model asks for history and nothing else. */
  ghost predicate OnlyHistory(oracles: seq<Oracle>) {
    forall i :: 0 <= i < |oracles| ==> oracles[i].assessment == Some(ProbeHistory)
  }

  /** But a history probe whose first finding is a bank-wide outage ends a loop on it after that one turn. */
  lemma {:induction false} BankWideHistoryEndsTheLoop(g: Setting, oracles: seq<Oracle>)
    requires OnlyHistory(oracles) && forall i :: 0 <= i < |oracles| ==> BankWide(g.evidence + [oracles[i].history])
    ensures var s := After(g, oracles);
            && s.turns <= 2
            && (s.probes == [] || (s.probes == [History] && BankWide(s.evidence) && s.node != AtHistory))
            && (s.probes == [] ==> s.evidence == g.evidence)
    decreases |oracles|
  {
    RunIsBounded(g, oracles);
    if oracles != [] {
      var front := oracles[..|oracles| - 1];
      BankWideHistoryEndsTheLoop(g, front);
      RunIsBounded(g, front);
    }
  }

  /** The probes find the same whenever they run. */
  ghost predicate AllFind(oracles: seq<Oracle>, downtime: Finding, history: Finding) {
    forall i :: 0 <= i < |oracles| ==> oracles[i].downtime == downtime && oracles[i].history == history
  }

  /** Some model can make the probes run on and on: a misnamed downtime probe does; a misnamed history
      probe does unless its finding, alone or after the downtime probe's, is taken for a bank-wide outage. */
  predicate CanLoop(e: seq<Finding>, downtime: Finding, history: Finding) {
    || (!Probed(e, Downtime) && downtime.topic != Downtime)
    || (!Probed(e, History) && history.topic != History && !BankWide(e)
        && (!BankWide(e + [history])
            || (!Probed(e, Downtime) && !BankWide(e + [downtime]) && !BankWide(e + [downtime] + [history]))))
  }

  /** Where a run can be when no model can make the probes loop: what has been probed, with what findings,
      and which probe may run next. */
  predicate Tracked(e: seq<Finding>, s: State, downtime: Finding, history: Finding) {
    if s.probes == [] then
      s.evidence == e && (s.node == AtDowntime ==> !Probed(e, Downtime))
      && (s.node == AtHistory ==> !Probed(e, History) && !BankWide(e))
    else if s.probes == [Downtime] then
      s.evidence == e + [downtime] && !Probed(e, Downtime) && s.node != AtDowntime
      && (s.node == AtHistory ==> !Probed(e, History) && !BankWide(e + [downtime]))
    else if s.probes == [History] then
      s.evidence == e + [history] && !Probed(e, History) && !BankWide(e) && s.node != AtHistory
      && (s.node == AtDowntime ==> !Probed(e + [history], Downtime))
    else if s.probes == [Downtime, History] then
      s.evidence == e + [downtime] + [history] && s.node != AtDowntime && s.node != AtHistory
      && !Probed(e, Downtime) && !Probed(e, History) && !BankWide(e + [downtime])
    else
      s.probes == [History, Downtime] && s.evidence == e + [history] + [downtime]
      && s.node != AtDowntime && s.node != AtHistory
      && !Probed(e, History) && !BankWide(e) && !Probed(e + [history], Downtime)
  }

  lemma BankWideStays(e: seq<Finding>, f: Finding)
    ensures BankWide(e) ==> BankWide(e + [f])
    ensures f.topic != Downtime ==> (BankWide(e + [f]) <==> BankWide(e))
  {
    KnownOutageOf(e, f);
  }

  /** Which probe the router may send a tracked run to next. */
  lemma NoThirdProbe(e: seq<Finding>, downtime: Finding, history: Finding)
    requires !CanLoop(e, downtime, history)
    ensures !Probed(e, Downtime) ==> downtime.topic == Downtime && Probed(e + [downtime], Downtime)
    ensures !Probed(e, History) && !BankWide(e) ==> Probed(e + [history], History) || BankWide(e + [history])
    ensures !Probed(e, Downtime) && !Probed(e, History) && !BankWide(e) && !BankWide(e + [downtime])
            ==> Probed(e + [downtime] + [history], History) || BankWide(e + [downtime] + [history])
    ensures Probed(e, Downtime) ==> Probed(e + [history], Downtime)
  {
    ProbedGrows(e, downtime, Downtime);
    ProbedGrows(e, history, History);
    ProbedGrows(e, history, Downtime);
    ProbedGrows(e + [downtime], history, History);
  }

  /** After history and then downtime nothing is left to probe either. */
  lemma HistoryFirst(e: seq<Finding>, downtime: Finding, history: Finding)
    requires !CanLoop(e, downtime, history) && !Probed(e, History) && !BankWide(e) && !Probed(e + [history], Downtime)
    ensures !Probed(e, Downtime) && history.topic != Downtime && downtime.topic == Downtime
    ensures Probed(e + [history], History)
    ensures Probed(e + [history] + [downtime], Downtime) && Probed(e + [history] + [downtime], History)
  {
    ProbedGrows(e, history, Downtime);
    ProbedGrows(e, history, History);
    BankWideStays(e, history);
    ProbedGrows(e + [history], downtime, Downtime);
    ProbedGrows(e + [history], downtime, History);
  }

  lemma DowntimeFirst(e: seq<Finding>, downtime: Finding, history: Finding)
    requires downtime.topic == Downtime
    ensures Probed(e + [downtime], Downtime) && Probed(e + [downtime] + [history], Downtime)
    ensures Probed(e + [downtime], History) <==> Probed(e, History)
    ensures Probed(e, History) ==> Probed(e + [downtime] + [history], History)
  {
    ProbedGrows(e, downtime, Downtime);
    ProbedGrows(e, downtime, History);
    ProbedGrows(e + [downtime], history, Downtime);
    ProbedGrows(e + [downtime], history, History);
  }

  lemma NextTracked(g: Setting, s: State, o: Oracle)
    requires Tracked(g.evidence, s, o.downtime, o.history) && !CanLoop(g.evidence, o.downtime, o.history)
    ensures Tracked(g.evidence, Next(g, s, o), o.downtime, o.history)
  {
    var e := g.evidence;
    if s.node == AtAssess {
      NoThirdProbe(e, o.downtime, o.history);
      if s.probes == [Downtime] || s.probes == [Downtime, History] {
        DowntimeFirst(e, o.downtime, o.history);
        BankWideStays(e, o.downtime);
      } else if s.probes == [History, Downtime] {
        HistoryFirst(e, o.downtime, o.history);
      }
    } else if s.node == AtDowntime {
      assert s.probes + [Downtime] == if s.probes == [] then [Downtime] else [History, Downtime];
    } else if s.node == AtHistory {
      assert s.probes + [History] == if s.probes == [] then [History] else [Downtime, History];
      BankWideStays(e, o.downtime);
    }
  }

  lemma {:induction false} RunTracked(g: Setting, oracles: seq<Oracle>, downtime: Finding, history: Finding)
    requires AllFind(oracles, downtime, history) && !CanLoop(g.evidence, downtime, history)
    ensures Tracked(g.evidence, After(g, oracles), downtime, history)
    decreases |oracles|
  {
    if oracles != [] {
      RunTracked(g, oracles[..|oracles| - 1], downtime, history);
      NextTracked(g, After(g, oracles[..|oracles| - 1]), oracles[|oracles| - 1]);
    }
  }

  /** A model that keeps asking for the same. */
  lemma AskingLoops(g: Setting, o: Oracle) returns (oracles: seq<Oracle>)
    requires Looping(Start(g), o)
    ensures AllFind(oracles, o.downtime, o.history) && After(g, oracles).turns == MAX_TURNS
  {
    oracles := seq(2 * MAX_TURNS, _ => o);
    MisnamedProbeUsesEveryTurn(g, o);
  }

  /** One that first asks for something else. */
  lemma AskingLoopsLater(g: Setting, d: Oracle, h: Oracle) returns (oracles: seq<Oracle>)
    requires d.downtime == h.downtime && d.history == h.history
    requires Looping(After(g, [d, d]), h) && After(g, [d, d]).turns == 1
    ensures AllFind(oracles, d.downtime, d.history) && After(g, oracles).turns == MAX_TURNS
  {
    oracles := [d, d] + seq(2 * (MAX_TURNS - 1), _ => h);
    LoopReachesBound(g, [d, d], h);
  }

  /** A looping model for every way the probes can loop. */
  lemma LoopExists(g: Setting, downtime: Finding, history: Finding)
    requires CanLoop(g.evidence, downtime, history)
    ensures exists oracles :: AllFind(oracles, downtime, history) && After(g, oracles).turns == MAX_TURNS
  {
    var d := Oracle(Some(ProbeDowntime), false, downtime, history, None);
    var h := Oracle(Some(ProbeHistory), false, downtime, history, None);
    var oracles;
    if Looping(Start(g), d) {
      oracles := AskingLoops(g, d);
    } else if Looping(Start(g), h) {
      oracles := AskingLoops(g, h);
    } else {
      LoopsOnceDowntimeIsKnown(g, d, h);
      oracles := AskingLoopsLater(g, d, h);
    }
  }

  lemma LoopsOnceDowntimeIsKnown(g: Setting, d: Oracle, h: Oracle)
    requires d.downtime == h.downtime && d.history == h.history && !d.spent && !h.spent
    requires d.assessment == Some(ProbeDowntime) && h.assessment == Some(ProbeHistory)
    requires CanLoop(g.evidence, d.downtime, d.history) && !Looping(Start(g), d) && !Looping(Start(g), h)
    ensures Looping(After(g, [d, d]), h) && After(g, [d, d]).turns == 1
  {
    DowntimeFirst(g.evidence, d.downtime, d.history);
    OneProbe(g, d);
  }

  lemma OneProbe(g: Setting, d: Oracle)
    requires d.assessment == Some(ProbeDowntime) && !d.spent && !Probed(g.evidence, Downtime)
    ensures var s := After(g, [d, d]); s.node == AtAssess && s.turns == 1 && s.evidence == g.evidence + [d.downtime]
  {
    assert [d, d][..1] == [d] && [d][..0] == [];
    assert After(g, [d]) == Next(g, Start(g), d);
  }

  /** Exactly when the three turns hold: for probes that find the same whenever they run, no model takes
      the strategist past its third turn unless `CanLoop`, and then some model spends every turn. */
  lemma ThreeTurnsIff(g: Setting, downtime: Finding, history: Finding)
    ensures (forall oracles :: AllFind(oracles, downtime, history) ==> After(g, oracles).turns <= 3)
            <==> !CanLoop(g.evidence, downtime, history)
  {
    if CanLoop(g.evidence, downtime, history) {
      LoopExists(g, downtime, history);
    } else {
      forall oracles | AllFind(oracles, downtime, history) ensures After(g, oracles).turns <= 3 {
        RunTracked(g, oracles, downtime, history);
        RunIsBounded(g, oracles);
      }
    }
  }

  // ------------------------------------------------------------------- the run, told

  /** The finding of a probe when it is run. */
  function FindingOf(o: Oracle, probe: Topic): Finding { if probe == Downtime then o.downtime else o.history }

  /** What these probes found, one after the other: turn i assesses with oracle 2i and probes with 2i + 1. */
  function Findings(oracles: seq<Oracle>, probes: seq<Topic>): seq<Finding>
    requires 2 * |probes| <= |oracles|
    decreases |probes|
  {
    if probes == [] then []
    else
      var n := |probes| - 1;
      Findings(oracles, probes[..n]) + [FindingOf(oracles[2 * n + 1], probes[n])]
  }

  /** The model asks for this probe within its budget. */
  predicate AsksFor(o: Oracle, probe: Topic) {
    !o.spent && o.assessment == if probe == Downtime then Some(ProbeDowntime) else Some(ProbeHistory)
  }

  /** Why the probing ends with this assessment: the budget is spent, the turns are, the model wants to compose or is
      unavailable, or it asks for what has been probed, or for a history that a bank-wide outage makes useless. */
  predicate EndsProbing(o: Oracle, turn: nat, evidence: seq<Finding>) {
    || o.spent || turn >= MAX_TURNS || o.assessment.None? || o.assessment == Some(ComposeNow)
    || (o.assessment == Some(ProbeDowntime) && Probed(evidence, Downtime))
    || (o.assessment == Some(ProbeHistory) && (Probed(evidence, History) || BankWide(evidence)))
  }

  /** What a state is, told by the answers. */
  ghost predicate TellsTurns(g: Setting, oracles: seq<Oracle>, s: State) {
    var n := |s.probes|;
    && 2 * n + (if s.node == AtAssess then 0 else if s.node == Done then 2 else 1) <= |oracles|
    && s.evidence == g.evidence + Findings(oracles, s.probes)
    && (forall i :: 0 <= i < n ==>
          AsksFor(oracles[2 * i], s.probes[i]) && (s.probes[i] == Downtime || s.probes[i] == History))
    && (s.node == AtDowntime ==> AsksFor(oracles[2 * n], Downtime) && !Probed(s.evidence, Downtime))
    && (s.node == AtHistory ==>
          AsksFor(oracles[2 * n], History) && !Probed(s.evidence, History) && !BankWide(s.evidence))
    && (s.node == AtCompose || s.node == Done ==> EndsProbing(oracles[2 * n], n + 1, s.evidence))
    && (s.node == Done ==> s.intent == Some(Pipeline.StrategistIntent(oracles[2 * n + 1].reply, g.verdict,
                                                                      g.fallbackVariables, g.version)))
  }

  lemma {:induction false} FindingsStay(oracles: seq<Oracle>, o: Oracle, probes: seq<Topic>)
    requires 2 * |probes| <= |oracles|
    ensures Findings(oracles + [o], probes) == Findings(oracles, probes)
    decreases |probes|
  {
    if probes != [] {
      FindingsStay(oracles, o, probes[..|probes| - 1]);
    }
  }

  lemma FindingJoins(oracles: seq<Oracle>, probes: seq<Topic>, probe: Topic)
    requires 2 * |probes| + 2 <= |oracles|
    ensures Findings(oracles, probes + [probe])
            == Findings(oracles, probes) + [FindingOf(oracles[2 * |probes| + 1], probe)]
  {
    var all := probes + [probe];
    assert |all| - 1 == |probes| && all[..|probes|] == probes && all[|probes|] == probe;
  }

  lemma AssessTells(g: Setting, oracles: seq<Oracle>, o: Oracle, s: State)
    requires TellsTurns(g, oracles, s) && s.node == AtAssess && s.turns == |s.probes| && |oracles| == 2 * |s.probes|
    ensures TellsTurns(g, oracles + [o], Next(g, s, o))
  {
    FindingsStay(oracles, o, s.probes);
    assert (oracles + [o])[2 * |s.probes|] == o;
  }

  lemma ProbeTells(g: Setting, oracles: seq<Oracle>, o: Oracle, s: State)
    requires TellsTurns(g, oracles, s) && (s.node == AtDowntime || s.node == AtHistory)
    requires |oracles| == 2 * |s.probes| + 1
    ensures TellsTurns(g, oracles + [o], Next(g, s, o))
  {
    var probe, all := if s.node == AtDowntime then Downtime else History, oracles + [o];
    FindingsStay(oracles, o, s.probes);
    FindingJoins(all, s.probes, probe);
    assert all[2 * |s.probes| + 1] == o;
    Associative(g.evidence, Findings(oracles, s.probes), [FindingOf(o, probe)]);
  }

  lemma ComposeTells(g: Setting, oracles: seq<Oracle>, o: Oracle, s: State)
    requires TellsTurns(g, oracles, s) && (s.node == Done || (s.node == AtCompose && |oracles| == 2 * |s.probes| + 1))
    ensures TellsTurns(g, oracles + [o], Next(g, s, o))
  {
    FindingsStay(oracles, o, s.probes);
  }

  lemma NextTellsTurns(g: Setting, oracles: seq<Oracle>, o: Oracle, s: State)
    requires TellsTurns(g, oracles, s) && Bounded(g, s) && (s.node == Done || s.visited == |oracles|)
    ensures TellsTurns(g, oracles + [o], Next(g, s, o))
  {
    if s.node == AtAssess {
      AssessTells(g, oracles, o, s);
    } else if s.node == AtDowntime || s.node == AtHistory {
      ProbeTells(g, oracles, o, s);
    } else {
      ComposeTells(g, oracles, o, s);
    }
  }

  /** Over every run: each probe is run because the model asked for it in that turn, within its budget; the
      evidence is what the probes found, in turn; probing ends for one of the reasons above; and the intent is made
      of the reply to the composing node, on the verdict and the version of the setting. */
  lemma {:induction false} RunTellsTurns(g: Setting, oracles: seq<Oracle>)
    ensures TellsTurns(g, oracles, After(g, oracles))
    decreases |oracles|
  {
    if oracles != [] {
      var front := oracles[..|oracles| - 1];
      assert oracles == front + [oracles[|oracles| - 1]];
      RunTellsTurns(g, front);
      RunIsBounded(g, front);
      NextTellsTurns(g, front, oracles[|oracles| - 1], After(g, front));
    }
  }
}
