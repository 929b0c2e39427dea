/** What stands behind a run's outcomes: no outside call follows an act under its key, and whatever was
    undertaken passed the gate on stored rows and was aimed at the payment they call for. */
module WorkerOutcomes {
  import opened Common
  import opened Events
  import opened Verdicts
  import opened Fold
  import opened Gate
  import opened GateTheorems
  import opened CallTheorems
  import opened Executor
  import opened Pipeline
  import opened Worker
  import opened WorkerTheorems
  import opened WorkerDecisions

  /** Records an outside call: what is done locally about money is STUBBED, and the other local actions move
      none. */
  predicate FromCall(o: Outcome) { MoneyMoving(o.action) && (o.status == Executed || o.status == FailedCall) }

  /** Something was done, or tried. */
  predicate Undertaken(o: Outcome) { o.status != Vetoed && o.status != Skipped }

  /** An intent before the gate, with all the gate looked at and the verdict it came from. */
  datatype Passage = Passage(intent: RecoveryIntent, obs: seq<Observation>, now: int, customer: CustomerContext,
                             seenKeys: set<Key>, evidence: seq<Evidence>, verdict: Verdict)

  /** Says of a passage that the gate allowed it; instantiated with the gate below. */
  type GateVerdict = Passage -> bool

  function GateAllows(cfg: FoldConfig): GateVerdict
    requires cfg.Valid()
  {
    (g: Passage) =>
      && Allowed(g.intent, g.obs, g.now, g.customer, g.seenKeys, cfg, g.evidence)
      && g.verdict == FoldOf(g.obs, g.now, "", g.evidence, cfg).verdict
  }

  /** The outcome's action passed the gate on stored rows of its order, under its key, and was aimed at the
      payment that those rows call for. */
  ghost predicate PassedAs(rows: seq<Observation>, o: Outcome, g: Passage, allows: GateVerdict) {
    && CleanSnapshot(rows, o.orderId, g.obs) && allows(g)
    && g.intent.action == o.action && o.idemKey == DecisionKey(g.obs, o.action)
    && o.paymentId == TargetPayment(StateOf(g.obs), g.verdict)
  }

  ghost predicate Passed(rows: seq<Observation>, o: Outcome, allows: GateVerdict) {
    exists g :: PassedAs(rows, o, g, allows)
  }

  ghost predicate OutcomesPassed(rows: seq<Observation>, outcomes: seq<Outcome>, allows: GateVerdict) {
    forall o :: o in outcomes && Undertaken(o) ==> Passed(rows, o, allows)
  }

  /** A task in an outside service passed the gate on what it had loaded, at its time, on its evidence. */
  ghost predicate CallPassed(rows: seq<Observation>, task: Task, allows: GateVerdict) {
    task.Calling? ==>
      exists g :: PassedAs(rows, task.base, g, allows)
                  && g.obs == task.obs && g.now == task.now && g.evidence == task.evidence
  }

  ghost predicate NoCallAfterAct(outcomes: seq<Outcome>) {
    forall i, j :: 0 <= i < j < |outcomes| && Acts(outcomes[i]) && outcomes[i].idemKey == outcomes[j].idemKey ==>
      !FromCall(outcomes[j])
  }

  ghost predicate OutcomeInv(w: World, allows: GateVerdict) {
    && NoCallAfterAct(w.memory.ledger.outcomes)
    && OutcomesPassed(w.memory.rows, w.memory.ledger.outcomes, allows)
    && forall t :: t in w.tasks ==> CallPassed(w.memory.rows, w.tasks[t], allows)
  }

  // ---------------------------------------------------------------------------- moves

  lemma CallAppended(x: Ledger, o: Outcome)
    requires NoCallAfterAct(x.outcomes) && RemembersActs(x) && (FromCall(o) ==> o.idemKey !in x.executed)
    ensures NoCallAfterAct(x.outcomes + [o])
  {
    var after := x.outcomes + [o];
    forall i, j | 0 <= i < j < |after| && Acts(after[i]) && after[i].idemKey == after[j].idemKey
      ensures !FromCall(after[j])
    {
      if j == |x.outcomes| {
        assert x.outcomes[i] in x.outcomes;
      }
    }
  }

  lemma PassedOnMore(rows: seq<Observation>, more: seq<Observation>, o: Outcome, g: Passage, allows: GateVerdict)
    requires PassedAs(rows, o, g, allows) && forall r :: r in rows ==> r in more
    ensures PassedAs(more, o, g, allows)
  {
  }

  lemma DeliverKeepsPassed(w: World, o: Observation, cfg: Config, allows: GateVerdict)
    requires cfg.fold.Valid() && OutcomeInv(w, allows) && Enabled(w, Deliver(o))
    ensures OutcomeInv(Next(w, Deliver(o), cfg), allows)
  {
    var rows := w.memory.rows;
    var more := Appended(rows, o);
    AppendedKeeps(rows, o);
    forall x | x in w.memory.ledger.outcomes && Undertaken(x) ensures Passed(more, x, allows) {
      var g :| PassedAs(rows, x, g, allows);
      PassedOnMore(rows, more, x, g, allows);
    }
    forall t | t in w.tasks ensures CallPassed(more, w.tasks[t], allows) {
      if w.tasks[t].Calling? {
        assert CallPassed(rows, w.tasks[t], allows);
        var g :| PassedAs(rows, w.tasks[t].base, g, allows)
                 && g.obs == w.tasks[t].obs && g.now == w.tasks[t].now && g.evidence == w.tasks[t].evidence;
        PassedOnMore(rows, more, w.tasks[t].base, g, allows);
      }
    }
  }

  /** What the first part of `execute` records, or takes along into its call. */
  lemma BeginRecords(x: Ledger, d: GateDecision, intent: RecoveryIntent, orderId: string, paymentId: string,
                     cfg: ExecConfig) returns (o: Outcome)
    ensures var a := Begin(x, d, intent, orderId, paymentId, cfg);
            && (a.Done? ==> a.ledger.outcomes == x.outcomes + [o] && !FromCall(o))
            && (a.Awaiting? ==> o == a.base)
            && (a.Awaiting? || Undertaken(o) ==>
                  && d.allowed && o.orderId == orderId && o.paymentId == paymentId
                  && o.action == intent.action && o.idemKey == d.idemKey)
  {
    var a := Begin(x, d, intent, orderId, paymentId, cfg);
    o := if a.Awaiting? then a.base else a.ledger.outcomes[|x.outcomes|];
  }

  /** The gate's decision on a task's own snapshot. */
  function PassageOf(m: Memory, task: Task, intent: RecoveryIntent, customer: CustomerContext): Passage
    requires task.Timed?
  {
    Passage(intent.(evidenceVersion := Some(EvidenceVersion(task.obs))), task.obs, task.now, customer,
            m.ledger.executed.Keys, task.evidence, task.verdict.verdict)
  }

  lemma AttemptRecords(m: Memory, task: Task, intent: RecoveryIntent, customer: CustomerContext, cfg: Config,
                       allows: GateVerdict) returns (o: Outcome)
    requires cfg.fold.Valid() && task.Timed? && CleanSnapshot(m.rows, task.orderId, task.obs)
    requires allows == GateAllows(cfg.fold)
    requires task.verdict == FoldOf(task.obs, task.now, task.orderId, task.evidence, cfg.fold)
    ensures var a := Attempted(m, task, intent, customer, cfg);
            && (a.Done? ==> a.ledger.outcomes == m.ledger.outcomes + [o] && !FromCall(o))
            && (a.Awaiting? ==> o == a.base)
            && (a.Awaiting? || Undertaken(o) ==> PassedAs(m.rows, o, PassageOf(m, task, intent, customer), allows))
  {
    var g := PassageOf(m, task, intent, customer);
    var d := DecisionOf(g.intent, task.obs, task.now, customer, g.seenKeys, cfg.fold, task.evidence);
    o := BeginRecords(m.ledger, d, g.intent, task.orderId, TargetPayment(StateOf(task.obs), task.verdict.verdict),
                      cfg.exec);
  }

  lemma ProposeKeepsPassed(w: World, t: nat, intent: RecoveryIntent, customer: CustomerContext, cfg: Config,
                           allows: GateVerdict)
    requires cfg.fold.Valid() && MemoryInv(w.memory) && OutcomeInv(w, allows) && allows == GateAllows(cfg.fold)
    requires Enabled(w, Propose(t, intent, customer))
    requires CleanSnapshot(w.memory.rows, w.tasks[t].orderId, w.tasks[t].obs)
    requires var task := w.tasks[t];
             task.verdict == FoldOf(task.obs, task.now, task.orderId, task.evidence, cfg.fold)
    ensures OutcomeInv(Next(w, Propose(t, intent, customer), cfg), allows)
  {
    var m, task := w.memory, w.tasks[t];
    var o := AttemptRecords(m, task, intent, customer, cfg, allows);
    AttemptKeepsPassed(w, t, Attempted(m, task, intent, customer, cfg), o, PassageOf(m, task, intent, customer),
                       allows);
  }

  lemma AttemptKeepsPassed(w: World, t: nat, a: Attempt, o: Outcome, g: Passage, allows: GateVerdict)
    requires OutcomeInv(w, allows) && RemembersActs(w.memory.ledger) && t in w.tasks && w.tasks[t].Timed?
    requires a.Done? ==> a.ledger.outcomes == w.memory.ledger.outcomes + [o] && !FromCall(o)
    requires a.Awaiting? ==> o == a.base
    requires a.Awaiting? || Undertaken(o) ==> PassedAs(w.memory.rows, o, g, allows)
    requires g.obs == w.tasks[t].obs && g.now == w.tasks[t].now && g.evidence == w.tasks[t].evidence
    ensures var task := w.tasks[t];
            match a
            case Done(ledger) =>
              OutcomeInv(World(Decided(w.memory, ledger, task.orderId, Made(task)), w.tasks[t := WrittenBy(task)]),
                         allows)
            case Awaiting(base) => OutcomeInv(w.(tasks := w.tasks[t := CallingFor(task, base)]), allows)
  {
    match a
    case Done(ledger) => CallAppended(w.memory.ledger, o);
    case Awaiting(base) =>
  }

  lemma ReplyKeepsPassed(w: World, t: nat, ok: bool, cfg: Config, allows: GateVerdict)
    requires cfg.fold.Valid() && Inv(w) && OutcomeInv(w, allows) && Enabled(w, Reply(t, ok))
    ensures OutcomeInv(Next(w, Reply(t, ok), cfg), allows)
  {
    var m, task := w.memory, w.tasks[t];
    assert TaskInv(m, t, task) && CallPassed(m.rows, task, allows);
    var o := if ok then task.base.(status := Executed) else task.base;
    var g :| PassedAs(m.rows, task.base, g, allows);
    assert PassedAs(m.rows, o, g, allows);
    CallAppended(m.ledger, o);
  }

  lemma OtherMoveKeepsPassed(w: World, move: Move, cfg: Config, allows: GateVerdict)
    requires cfg.fold.Valid() && OutcomeInv(w, allows) && Enabled(w, move)
    requires !move.Deliver? && !move.Propose? && !move.Reply?
    ensures OutcomeInv(Next(w, move, cfg), allows)
  {
    var x := Next(w, move, cfg);
    assert x.memory.ledger == w.memory.ledger && x.memory.rows == w.memory.rows;
    forall t | t in x.tasks ensures CallPassed(x.memory.rows, x.tasks[t], allows) {
      assert !x.tasks[t].Calling? || (t in w.tasks && x.tasks[t] == w.tasks[t]);
    }
  }

  lemma DecidesOnCleanRows(w: World, t: nat, right: Rightness)
    requires Inv(w) && MadeInv(w, right) && t in w.tasks && w.tasks[t].Timed?
    ensures CleanSnapshot(w.memory.rows, w.tasks[t].orderId, w.tasks[t].obs)
    ensures right(w.tasks[t].orderId, Made(w.tasks[t]))
  {
    assert TaskInv(w.memory, t, w.tasks[t]) && TaskMade(w.memory.tickNow, w.memory.last, t, w.tasks[t], right);
  }

  lemma NextKeepsPassed(w: World, move: Move, cfg: Config, allows: GateVerdict)
    requires cfg.fold.Valid() && Inv(w) && MadeInv(w, IsFold(cfg.fold)) && OutcomeInv(w, allows) && Enabled(w, move)
    requires allows == GateAllows(cfg.fold)
    ensures OutcomeInv(Next(w, move, cfg), allows)
  {
    match move
    case Deliver(o) => DeliverKeepsPassed(w, o, cfg, allows);
    case Propose(t, intent, customer) =>
      DecidesOnCleanRows(w, t, IsFold(cfg.fold));
      ProposeKeepsPassed(w, t, intent, customer, cfg, allows);
    case Reply(t, ok) => ReplyKeepsPassed(w, t, ok, cfg, allows);
    case _ => OtherMoveKeepsPassed(w, move, cfg, allows);
  }

  lemma {:induction false} RunKeepsPassed(w: World, moves: seq<Move>, cfg: Config, allows: GateVerdict)
    requires cfg.fold.Valid() && Inv(w) && MadeInv(w, IsFold(cfg.fold)) && OutcomeInv(w, allows)
    requires IsRun(w, moves, cfg) && allows == GateAllows(cfg.fold)
    ensures OutcomeInv(After(w, moves, cfg), allows)
    decreases |moves|
  {
    if moves != [] {
      NextKeepsInv(w, moves[0], cfg);
      NextKeepsMade(w, moves[0], cfg, IsFold(cfg.fold));
      NextKeepsPassed(w, moves[0], cfg, allows);
      RunKeepsPassed(Next(w, moves[0], cfg), moves[1..], cfg, allows);
    }
  }

  lemma ReachedPassed(moves: seq<Move>, cfg: Config)
    requires cfg.fold.Valid() && IsRun(INITIAL, moves, cfg)
    ensures OutcomeInv(Reached(moves, cfg), GateAllows(cfg.fold))
  {
    RunKeepsPassed(INITIAL, moves, cfg, GateAllows(cfg.fold));
  }

  // -------------------------------------------------------------------------- theorems

  /** Over every interleaving, no outside call is recorded after an act under its key: a call is repeated
      under one key only after calls that failed. */
  lemma CallsRepeatOnlyAfterFailures(moves: seq<Move>, cfg: Config, i: nat, j: nat)
    requires cfg.fold.Valid() && IsRun(INITIAL, moves, cfg)
    requires var outcomes := Reached(moves, cfg).memory.ledger.outcomes;
             && i < j < |outcomes| && outcomes[i].idemKey == outcomes[j].idemKey
             && FromCall(outcomes[i]) && FromCall(outcomes[j])
    ensures Reached(moves, cfg).memory.ledger.outcomes[i].status == FailedCall
  {
    ReachedPassed(moves, cfg);
  }

  /** And of the calls under way no two carry one key, nor one that has acted. */
  lemma OneCallInFlightPerKey(moves: seq<Move>, cfg: Config, t: nat, u: nat)
    requires cfg.fold.Valid() && IsRun(INITIAL, moves, cfg) && t != u
    requires var tasks := Reached(moves, cfg).tasks;
             t in tasks && u in tasks && tasks[t].Calling? && tasks[u].Calling?
    ensures var w := Reached(moves, cfg);
            && w.tasks[t].base.idemKey != w.tasks[u].base.idemKey
            && forall o :: o in w.memory.ledger.outcomes && Acts(o) ==> o.idemKey != w.tasks[t].base.idemKey
  {
    ReachedInv(moves, cfg);
    CallsApart(Reached(moves, cfg), t, u);
  }

  lemma CallsApart(w: World, t: nat, u: nat)
    requires Inv(w) && t != u && t in w.tasks && u in w.tasks && w.tasks[t].Calling? && w.tasks[u].Calling?
    ensures w.tasks[t].base.idemKey != w.tasks[u].base.idemKey
    ensures forall o :: o in w.memory.ledger.outcomes && Acts(o) ==> o.idemKey != w.tasks[t].base.idemKey
  {
    assert TaskInv(w.memory, t, w.tasks[t]) && TaskInv(w.memory, u, w.tasks[u]);
    LocksExclude(w, t, u);
    KeysOfOrdersDiffer(w.memory, w.tasks[t].orderId, w.tasks[u].orderId, w.tasks[t].base.idemKey,
                       w.tasks[u].base.idemKey);
  }

  /** What the gate had established of a passage, by its action. */
  ghost predicate Justified(g: Passage, cfg: FoldConfig)
    requires cfg.Valid()
  {
    var st := StateOf(g.obs);
    match g.intent.action
    case SendRecoveryLink =>
      && g.verdict == ConfirmedFailed && Missing(g.evidence) == 0 && (forall o :: o in g.obs ==> o.sourceOrder == "")
      && (g.intent.category == ServiceImplicit && cfg.settleHorizonDays >= 3 && PositiveTimes(g.obs) ==>
            forall p :: p in st.payments ==> FateSealed(p, g.evidence))
    case Refund =>
      && (g.verdict == OrderSettled || g.verdict == ConfirmedFailed) && Missing(g.evidence) == 0 && !NothingToRefund(st)
    case Capture =>
      && (g.verdict == OrderSettled || g.verdict == UncapturedAuth) && Missing(g.evidence) <= 1
      && WithStatus(st.payments, Authorized) != [] && WithStatus(st.payments, Captured) == []
      && (g.verdict == UncapturedAuth ==>
            exists p :: p in st.payments && p.status == Some(Authorized) && p.id == TargetPayment(st, g.verdict))
    case VoiceCall =>
      && g.intent.confidence >= 8_500 && MessageClear(g.intent, st, g.obs, g.now, g.customer)
      && g.customer.consentAgeDays <= 7 && DaytimeAfter(LastMidnight(g.now), g.now)
    case NotifyMerchant => g.intent.confidence >= 6_000
    case _ => true
  }

  lemma CaptureTarget(st: Order)
    requires WithStatus(st.payments, Authorized) != []
    ensures exists p :: p in st.payments && p.status == Some(Authorized) && p.id == TargetPayment(st, UncapturedAuth)
  {
    var p := WithStatus(st.payments, Authorized)[0];
    assert p in WithStatus(st.payments, Authorized);
  }

  lemma LinkIsJustified(g: Passage, cfg: FoldConfig)
    requires cfg.Valid() && GateAllows(cfg)(g) && g.intent.action == SendRecoveryLink
    ensures Justified(g, cfg)
  {
    AllowedLinkIsConfirmedFailed(g.intent, g.obs, g.now, g.customer, g.seenKeys, cfg, g.evidence);
    AllowedLinkIsUnstamped(g.intent, g.obs, g.now, g.customer, g.seenKeys, cfg, g.evidence);
    if g.intent.category == ServiceImplicit && cfg.settleHorizonDays >= 3 && PositiveTimes(g.obs) {
      NoLinkLicensedByWaiting(g.intent, g.obs, g.now, g.customer, g.seenKeys, cfg, g.evidence);
    }
  }

  lemma CallIsJustified(g: Passage, cfg: FoldConfig)
    requires cfg.Valid() && GateAllows(cfg)(g) && g.intent.action == VoiceCall
    ensures Justified(g, cfg)
  {
    CallAllowedIff(g.intent, g.obs, g.now, g.customer, g.seenKeys, cfg, g.evidence, LastMidnight(g.now));
  }

  lemma AllowedIsJustified(g: Passage, cfg: FoldConfig)
    requires cfg.Valid() && GateAllows(cfg)(g)
    ensures Justified(g, cfg)
  {
    match g.intent.action
    case SendRecoveryLink => LinkIsJustified(g, cfg);
    case Refund => AllowedRefund(g.intent, g.obs, g.now, g.customer, g.seenKeys, cfg, g.evidence);
    case Capture =>
      AllowedCapture(g.intent, g.obs, g.now, g.customer, g.seenKeys, cfg, g.evidence);
      CaptureTarget(StateOf(g.obs));
    case VoiceCall => CallIsJustified(g, cfg);
    case NotifyMerchant => QuietActionAllowedIff(g.intent, g.obs, g.now, g.customer, g.seenKeys, cfg, g.evidence);
    case _ =>
  }

  /** Over every interleaving, whatever was undertaken, or tried, passed the gate on stored rows of its order,
      each once, is justified by them, and was aimed at the payment they call for. */
  lemma OutcomesAreJustified(moves: seq<Move>, cfg: Config, o: Outcome) returns (g: Passage)
    requires cfg.fold.Valid() && IsRun(INITIAL, moves, cfg)
    requires o in Reached(moves, cfg).memory.ledger.outcomes && Undertaken(o)
    ensures PassedAs(Reached(moves, cfg).memory.rows, o, g, GateAllows(cfg.fold)) && Justified(g, cfg.fold)
  {
    ReachedPassed(moves, cfg);
    assert Passed(Reached(moves, cfg).memory.rows, o, GateAllows(cfg.fold));
    g :| PassedAs(Reached(moves, cfg).memory.rows, o, g, GateAllows(cfg.fold));
    AllowedIsJustified(g, cfg.fold);
  }

  /** The passage is the one of the task's own rows, time and evidence. */
  predicate OfTask(g: Passage, task: Task)
    requires HasVerdict(task)
  {
    g.obs == task.obs && g.now == task.now && g.evidence == task.evidence && g.verdict == task.verdict.verdict
  }

  /** At every step of every run: what a proposal undertakes at once, a voice call among it, is justified by
      the rows its task had loaded, at the task's own time and on its evidence. */
  lemma ProposalsAreJustified(moves: seq<Move>, t: nat, intent: RecoveryIntent, customer: CustomerContext, cfg: Config)
    returns (g: Passage)
    requires cfg.fold.Valid() && IsRun(INITIAL, moves, cfg)
    requires Enabled(Reached(moves, cfg), Propose(t, intent, customer))
    ensures var w, x := Reached(moves, cfg), Next(Reached(moves, cfg), Propose(t, intent, customer), cfg);
            var before, after := w.memory.ledger.outcomes, x.memory.ledger.outcomes;
            && OfTask(g, w.tasks[t]) && g.customer == customer
            && (x.tasks[t].Calling? ==>
                  PassedAs(x.memory.rows, x.tasks[t].base, g, GateAllows(cfg.fold)) && Justified(g, cfg.fold))
            && (!x.tasks[t].Calling? ==>
                  && |after| == |before| + 1 && after[..|before|] == before
                  && (Undertaken(after[|before|]) ==>
                        PassedAs(x.memory.rows, after[|before|], g, GateAllows(cfg.fold)) && Justified(g, cfg.fold)))
  {
    var w := Reached(moves, cfg);
    ReachedMade(moves, cfg);
    DecidesOnCleanRows(w, t, IsFold(cfg.fold));
    g := PassageOf(w.memory, w.tasks[t], intent, customer);
    var o := AttemptRecords(w.memory, w.tasks[t], intent, customer, cfg, GateAllows(cfg.fold));
    if GateAllows(cfg.fold)(g) {
      AllowedIsJustified(g, cfg.fold);
    }
  }

  /** And so is every call under way. */
  lemma CallsAreJustified(moves: seq<Move>, cfg: Config, t: nat) returns (g: Passage)
    requires cfg.fold.Valid() && IsRun(INITIAL, moves, cfg)
    requires t in Reached(moves, cfg).tasks && Reached(moves, cfg).tasks[t].Calling?
    ensures var w := Reached(moves, cfg);
            && PassedAs(w.memory.rows, w.tasks[t].base, g, GateAllows(cfg.fold)) && Justified(g, cfg.fold)
            && g.obs == w.tasks[t].obs && g.now == w.tasks[t].now && g.evidence == w.tasks[t].evidence
  {
    ReachedPassed(moves, cfg);
    var w := Reached(moves, cfg);
    assert CallPassed(w.memory.rows, w.tasks[t], GateAllows(cfg.fold));
    g :| PassedAs(w.memory.rows, w.tasks[t].base, g, GateAllows(cfg.fold))
         && g.obs == w.tasks[t].obs && g.now == w.tasks[t].now && g.evidence == w.tasks[t].evidence;
    AllowedIsJustified(g, cfg.fold);
  }

  // -------------------------------------------------------------------------- dry runs

  /** No call is under way and none is recorded. */
  ghost predicate CallsNobody(w: World) {
    && (forall t :: t in w.tasks ==> !w.tasks[t].Calling?)
    && forall o :: o in w.memory.ledger.outcomes ==> !FromCall(o)
  }

  lemma DryAttempt(m: Memory, task: Task, intent: RecoveryIntent, customer: CustomerContext, cfg: Config)
    returns (o: Outcome)
    requires cfg.fold.Valid() && cfg.exec.dryRun && task.Timed?
    ensures var a := Attempted(m, task, intent, customer, cfg);
            a.Done? && a.ledger.outcomes == m.ledger.outcomes + [o] && !FromCall(o)
  {
    var keyed := intent.(evidenceVersion := Some(EvidenceVersion(task.obs)));
    var d := DecisionOf(keyed, task.obs, task.now, customer, m.ledger.executed.Keys, cfg.fold, task.evidence);
    var target := TargetPayment(StateOf(task.obs), task.verdict.verdict);
    CallsIff(keyed, cfg.exec);
    o := BeginRecords(m.ledger, d, keyed, task.orderId, target, cfg.exec);
    BeginRecorded(m.ledger, d, keyed, task.orderId, target, cfg.exec);
  }

  /** Only a proposal starts a call, and only an answer to one is recorded otherwise. */
  lemma OtherMoveStartsNoCall(w: World, move: Move, cfg: Config)
    requires cfg.fold.Valid() && Enabled(w, move) && !move.Propose? && !move.Reply?
    ensures var x := Next(w, move, cfg);
            && x.memory.ledger == w.memory.ledger
            && forall t :: t in x.tasks && x.tasks[t].Calling? ==> t in w.tasks && w.tasks[t].Calling?
  {
  }

  lemma NextCallsNobody(w: World, move: Move, cfg: Config)
    requires cfg.fold.Valid() && cfg.exec.dryRun && CallsNobody(w) && Enabled(w, move)
    ensures CallsNobody(Next(w, move, cfg))
  {
    match move
    case Propose(t, intent, customer) => var o := DryAttempt(w.memory, w.tasks[t], intent, customer, cfg);
    case Reply(_, _) =>
    case _ => OtherMoveStartsNoCall(w, move, cfg);
  }

  lemma {:induction false} RunCallsNobody(w: World, moves: seq<Move>, cfg: Config)
    requires cfg.fold.Valid() && cfg.exec.dryRun && CallsNobody(w) && IsRun(w, moves, cfg)
    ensures CallsNobody(After(w, moves, cfg))
    decreases |moves|
  {
    if moves != [] {
      NextCallsNobody(w, moves[0], cfg);
      RunCallsNobody(Next(w, moves[0], cfg), moves[1..], cfg);
    }
  }

  /** In a dry run nobody outside is ever called, whatever is decided. */
  lemma DryRunCallsNobody(moves: seq<Move>, cfg: Config)
    requires cfg.fold.Valid() && cfg.exec.dryRun && IsRun(INITIAL, moves, cfg)
    ensures CallsNobody(Reached(moves, cfg))
  {
    RunCallsNobody(INITIAL, moves, cfg);
  }
}
