/** What a run's decisions rest on: the fold of stored rows, at the tick's own time, keyed on exactly the
    events they saw; and when a decision sees all that the one before it saw. */
module WorkerDecisions {
  import opened Common
  import opened Events
  import opened Verdicts
  import opened Fold
  import opened PaymentTheorems
  import opened Gate
  import opened Executor
  import opened Pipeline
  import opened Worker
  import opened WorkerTheorems

  // ------------------------------------------------------------------------ invariant

  /** Says of a decision on an order that it is right; instantiated with the fold below. */
  type Rightness = (string, Decision) -> bool

  /** Rows of the order, each once. */
  ghost predicate CleanSnapshot(rows: seq<Observation>, orderId: string, obs: seq<Observation>) {
    Snapshot(rows, orderId, obs) && NoRepeats(obs)
  }

  ghost predicate LastMade(rows: seq<Observation>, last: map<string, Decision>, right: Rightness) {
    forall o :: o in last ==> right(o, last[o]) && CleanSnapshot(rows, o, last[o].obs)
  }

  /** The outcome's key is that of its action on a snapshot of its order. */
  ghost predicate KeyedOn(rows: seq<Observation>, x: Outcome) {
    exists obs :: CleanSnapshot(rows, x.orderId, obs) && x.idemKey == DecisionKey(obs, x.action)
  }

  ghost predicate OutcomesKeyed(rows: seq<Observation>, outcomes: seq<Outcome>) {
    forall x :: x in outcomes && x.status != Vetoed ==> KeyedOn(rows, x)
  }

  /** The rows of the last decision on an order are among these. */
  predicate Covers(obs: seq<Observation>, last: map<string, Decision>, orderId: string) {
    orderId in last ==> forall r :: r in last[orderId].obs ==> r in obs
  }

  ghost predicate TaskMade(tickNow: int, last: map<string, Decision>, t: nat, task: Task, right: Rightness) {
    && (HasObs(task) ==> NoRepeats(task.obs))
    && (HasVerdict(task) ==> right(task.orderId, Made(task)))
    && (HasObs(task) && t == TICK ==> task.now == tickNow)
    && (HasObs(task) && t != TICK ==> Covers(task.obs, last, task.orderId) && !task.Preloaded?)
    && (task.Calling? ==> task.base.idemKey == DecisionKey(task.obs, task.base.action))
  }

  ghost predicate MadeInv(w: World, right: Rightness) {
    var m := w.memory;
    && LastMade(m.rows, m.last, right)
    && OutcomesKeyed(m.rows, m.ledger.outcomes)
    && forall t :: t in w.tasks ==> TaskMade(m.tickNow, m.last, t, w.tasks[t], right)
  }

  // ---------------------------------------------------------------------------- moves

  lemma {:induction false} RowsOfDistinct(rows: seq<Observation>, orderId: string)
    requires UniqueRows(rows)
    ensures NoRepeats(RowsOf(rows, orderId))
  {
    if rows != [] {
      var front, last := rows[..|rows| - 1], rows[|rows| - 1];
      RowsOfDistinct(front, orderId);
      RowsOfElements(front, orderId);
      assert rows == front + [last];
      forall i | 0 <= i < |front| ensures front[i] != last {
        assert front[i] == rows[i];
      }
      assert last !in RowsOf(front, orderId);
    }
  }

  lemma RowsGrow(rows: seq<Observation>, more: seq<Observation>, last: map<string, Decision>, outcomes: seq<Outcome>,
                 right: Rightness)
    requires LastMade(rows, last, right) && OutcomesKeyed(rows, outcomes) && forall r :: r in rows ==> r in more
    ensures LastMade(more, last, right) && OutcomesKeyed(more, outcomes)
  {
    forall x | x in outcomes && x.status != Vetoed ensures KeyedOn(more, x) {
      assert KeyedOn(rows, x);
      var obs :| CleanSnapshot(rows, x.orderId, obs) && x.idemKey == DecisionKey(obs, x.action);
      assert CleanSnapshot(more, x.orderId, obs);
    }
  }

  /** A decision is recorded: the outcome is keyed on its snapshot, and no other task holds this order. */
  lemma RecordedMade(rows: seq<Observation>, ledger: Ledger, o: Outcome, task: Task)
    requires OutcomesKeyed(rows, ledger.outcomes) && HasObs(task) && CleanSnapshot(rows, task.orderId, task.obs)
    requires o.status != Vetoed ==> o.orderId == task.orderId && o.idemKey == DecisionKey(task.obs, o.action)
    ensures OutcomesKeyed(rows, ledger.outcomes + [o])
  {
  }

  lemma OtherTaskMade(tickNow: int, last: map<string, Decision>, orderId: string, d: Decision, u: nat, other: Task,
                      right: Rightness)
    requires TaskMade(tickNow, last, u, other, right) && (Holds(other) ==> other.orderId != orderId)
    ensures TaskMade(tickNow, last[orderId := d], u, other, right)
  {
  }

  lemma DecidedMade(w: World, t: nat, ledger: Ledger, right: Rightness)
    requires MadeInv(w, right) && t in w.tasks && (w.tasks[t].Timed? || w.tasks[t].Calling?)
    requires OutcomesKeyed(w.memory.rows, ledger.outcomes)
    requires CleanSnapshot(w.memory.rows, w.tasks[t].orderId, w.tasks[t].obs)
    requires forall u :: u in w.tasks && u != t && Holds(w.tasks[u]) ==> w.tasks[u].orderId != w.tasks[t].orderId
    ensures var task := w.tasks[t];
            MadeInv(World(Decided(w.memory, ledger, task.orderId, Made(task)), w.tasks[t := WrittenBy(task)]), right)
  {
    var m, task := w.memory, w.tasks[t];
    assert TaskMade(m.tickNow, m.last, t, task, right);
    OthersMade(w, t, task.orderId, Made(task), right);
    WrittenMade(m.tickNow, m.last, t, task, right);
  }

  lemma OthersMade(w: World, t: nat, orderId: string, d: Decision, right: Rightness)
    requires MadeInv(w, right)
    requires forall u :: u in w.tasks && u != t && Holds(w.tasks[u]) ==> w.tasks[u].orderId != orderId
    ensures forall u :: u in w.tasks && u != t ==>
              TaskMade(w.memory.tickNow, w.memory.last[orderId := d], u, w.tasks[u], right)
  {
    forall u | u in w.tasks && u != t
      ensures TaskMade(w.memory.tickNow, w.memory.last[orderId := d], u, w.tasks[u], right)
    {
      OtherTaskMade(w.memory.tickNow, w.memory.last, orderId, d, u, w.tasks[u], right);
    }
  }

  lemma WrittenMade(tickNow: int, last: map<string, Decision>, t: nat, task: Task, right: Rightness)
    requires TaskMade(tickNow, last, t, task, right) && HasVerdict(task)
    ensures TaskMade(tickNow, last[task.orderId := Made(task)], t, WrittenBy(task), right)
  {
  }

  /** What the locks give a deciding task. */
  lemma DeciderAlone(w: World, t: nat)
    requires Inv(w) && t in w.tasks && (w.tasks[t].Timed? || w.tasks[t].Calling?)
    ensures Snapshot(w.memory.rows, w.tasks[t].orderId, w.tasks[t].obs)
    ensures forall u :: u in w.tasks && u != t && Holds(w.tasks[u]) ==> w.tasks[u].orderId != w.tasks[t].orderId
  {
    assert TaskInv(w.memory, t, w.tasks[t]);
    forall u | u in w.tasks && u != t && Holds(w.tasks[u]) ensures w.tasks[u].orderId != w.tasks[t].orderId {
      LocksExclude(w, t, u);
    }
  }

  /** The ledger with one more outcome, which is keyed on this key's events unless it was vetoed. */
  predicate Appends(x: Ledger, y: Ledger, orderId: string, k: Key) {
    && |y.outcomes| == |x.outcomes| + 1 && y.outcomes[..|x.outcomes|] == x.outcomes
    && var o := y.outcomes[|x.outcomes|];
       o.status != Vetoed ==> o.orderId == orderId && o.idemKey == k && o.action == k.action
  }

  lemma BeginKeyed(x: Ledger, d: GateDecision, intent: RecoveryIntent, orderId: string, paymentId: string,
                   cfg: ExecConfig)
    requires d.idemKey.action == intent.action
    ensures var a := Begin(x, d, intent, orderId, paymentId, cfg);
            && (a.Awaiting? ==> a.base.idemKey == d.idemKey && a.base.action == intent.action)
            && (a.Done? ==> Appends(x, a.ledger, orderId, d.idemKey))
  {
  }

  lemma AttemptKeyed(m: Memory, task: Task, intent: RecoveryIntent, customer: CustomerContext, cfg: Config)
    requires cfg.fold.Valid() && task.Timed?
    ensures var a := Attempted(m, task, intent, customer, cfg);
            && (a.Awaiting? ==> a.base.idemKey == DecisionKey(task.obs, a.base.action))
            && (a.Done? ==> Appends(m.ledger, a.ledger, task.orderId, DecisionKey(task.obs, intent.action)))
  {
    var keyed := intent.(evidenceVersion := Some(EvidenceVersion(task.obs)));
    var d := DecisionOf(keyed, task.obs, task.now, customer, m.ledger.executed.Keys, cfg.fold, task.evidence);
    assert d.idemKey == DecisionKey(task.obs, intent.action);
    BeginKeyed(m.ledger, d, keyed, task.orderId, TargetPayment(StateOf(task.obs), task.verdict.verdict), cfg.exec);
  }

  lemma TaskMadeMoves(w: World, t: nat, task: Task, right: Rightness)
    requires MadeInv(w, right) && TaskMade(w.memory.tickNow, w.memory.last, t, task, right)
    ensures MadeInv(w.(tasks := w.tasks[t := task]), right)
  {
  }

  lemma AppendsMade(rows: seq<Observation>, before: Ledger, after: Ledger, task: Task, k: Key)
    requires OutcomesKeyed(rows, before.outcomes) && HasObs(task) && CleanSnapshot(rows, task.orderId, task.obs)
    requires k == DecisionKey(task.obs, k.action) && Appends(before, after, task.orderId, k)
    ensures OutcomesKeyed(rows, after.outcomes)
  {
    var o := after.outcomes[|before.outcomes|];
    RecordedMade(rows, before, o, task);
    assert after.outcomes == before.outcomes + [o];
  }

  lemma AttemptMade(w: World, t: nat, a: Attempt, k: Key, right: Rightness)
    requires MadeInv(w, right) && t in w.tasks && w.tasks[t].Timed?
    requires CleanSnapshot(w.memory.rows, w.tasks[t].orderId, w.tasks[t].obs)
    requires forall u :: u in w.tasks && u != t && Holds(w.tasks[u]) ==> w.tasks[u].orderId != w.tasks[t].orderId
    requires k == DecisionKey(w.tasks[t].obs, k.action)
    requires a.Awaiting? ==> a.base.idemKey == DecisionKey(w.tasks[t].obs, a.base.action)
    requires a.Done? ==> Appends(w.memory.ledger, a.ledger, w.tasks[t].orderId, k)
    ensures var task := w.tasks[t];
            match a
            case Done(ledger) =>
              MadeInv(World(Decided(w.memory, ledger, task.orderId, Made(task)), w.tasks[t := WrittenBy(task)]), right)
            case Awaiting(base) => MadeInv(w.(tasks := w.tasks[t := CallingFor(task, base)]), right)
  {
    var m, task := w.memory, w.tasks[t];
    assert TaskMade(m.tickNow, m.last, t, task, right);
    match a
    case Done(ledger) =>
      AppendsMade(m.rows, m.ledger, ledger, task, k);
      DecidedMade(w, t, ledger, right);
    case Awaiting(base) =>
      TaskMadeMoves(w, t, CallingFor(task, base), right);
  }

  lemma ProposeMade(w: World, t: nat, intent: RecoveryIntent, customer: CustomerContext, cfg: Config, right: Rightness)
    requires cfg.fold.Valid() && Inv(w) && MadeInv(w, right) && Enabled(w, Propose(t, intent, customer))
    ensures MadeInv(Next(w, Propose(t, intent, customer), cfg), right)
  {
    var m, task := w.memory, w.tasks[t];
    DeciderAlone(w, t);
    assert TaskMade(m.tickNow, m.last, t, task, right);
    AttemptKeyed(m, task, intent, customer, cfg);
    AttemptMade(w, t, Attempted(m, task, intent, customer, cfg), DecisionKey(task.obs, intent.action), right);
  }

  lemma ReplyMade(w: World, t: nat, ok: bool, cfg: Config, right: Rightness)
    requires cfg.fold.Valid() && Inv(w) && MadeInv(w, right) && Enabled(w, Reply(t, ok))
    ensures MadeInv(Next(w, Reply(t, ok), cfg), right)
  {
    var m, task := w.memory, w.tasks[t];
    DeciderAlone(w, t);
    assert TaskMade(m.tickNow, m.last, t, task, right);
    RecordedMade(m.rows, m.ledger, if ok then task.base.(status := Executed) else task.base, task);
    DecidedMade(w, t, Resume(m.ledger, task.base, ok), right);
  }

  lemma LoadMade(w: World, t: nat, now: int, cfg: Config, right: Rightness)
    requires cfg.fold.Valid() && Inv(w) && MadeInv(w, right) && Enabled(w, Load(t, now))
    ensures MadeInv(Next(w, Load(t, now), cfg), right)
  {
    var m, orderId := w.memory, w.tasks[t].orderId;
    assert TaskInv(m, t, w.tasks[t]);
    var obs := RowsOf(m.rows, orderId);
    if obs != [] && !Ignored(obs) {
      LoadedMade(m, t, orderId, now, right);
      TaskMadeMoves(w, t, Deciding(orderId, obs, now), right);
    }
  }

  lemma LoadedMade(m: Memory, t: nat, orderId: string, now: int, right: Rightness)
    requires UniqueRows(m.rows) && LastMade(m.rows, m.last, right) && t != TICK
    ensures TaskMade(m.tickNow, m.last, t, Deciding(orderId, RowsOf(m.rows, orderId), now), right)
  {
    RowsOfDistinct(m.rows, orderId);
    RowsOfElements(m.rows, orderId);
  }

  lemma TickLoadMade(w: World, cfg: Config, right: Rightness)
    requires cfg.fold.Valid() && Inv(w) && MadeInv(w, right) && Enabled(w, TickLoad)
    ensures MadeInv(Next(w, TickLoad, cfg), right)
  {
    RowsOfDistinct(w.memory.rows, w.memory.batch[0]);
  }

  lemma DeliverMade(w: World, o: Observation, cfg: Config, right: Rightness)
    requires cfg.fold.Valid() && MadeInv(w, right) && Enabled(w, Deliver(o))
    ensures MadeInv(Next(w, Deliver(o), cfg), right)
  {
    var m := w.memory;
    AppendedKeeps(m.rows, o);
    RowsGrow(m.rows, Appended(m.rows, o), m.last, m.ledger.outcomes, right);
  }

  lemma ResolveMade(w: World, t: nat, evidence: seq<Evidence>, cfg: Config, right: Rightness)
    requires cfg.fold.Valid() && MadeInv(w, right) && Enabled(w, Resolve(t, evidence))
    requires var task := w.tasks[t];
             right(task.orderId, Decision(task.obs, task.now, evidence,
                                          FoldOf(task.obs, task.now, task.orderId, evidence, cfg.fold)))
    ensures MadeInv(Next(w, Resolve(t, evidence), cfg), right)
  {
    assert TaskMade(w.memory.tickNow, w.memory.last, t, w.tasks[t], right);
  }

  lemma MessageMade(w: World, t: nat, orderId: string, cfg: Config, right: Rightness)
    requires cfg.fold.Valid() && MadeInv(w, right) && Enabled(w, Message(t, orderId))
    ensures MadeInv(Next(w, Message(t, orderId), cfg), right)
  {
    TaskMadeMoves(w, t, Waiting(orderId), right);
  }

  lemma TickMade(w: World, now: int, ready: seq<string>, cfg: Config, right: Rightness)
    requires cfg.fold.Valid() && MadeInv(w, right) && Enabled(w, Tick(now, ready))
    ensures MadeInv(Next(w, Tick(now, ready), cfg), right)
  {
    var m := w.memory;
    forall t | t in w.tasks ensures TaskMade(now, m.last, t, w.tasks[t], right) {
      assert TaskMade(m.tickNow, m.last, t, w.tasks[t], right);
    }
  }

  lemma AcquireMade(w: World, t: nat, cfg: Config, right: Rightness)
    requires cfg.fold.Valid() && Inv(w) && MadeInv(w, right) && Enabled(w, Acquire(t))
    ensures MadeInv(Next(w, Acquire(t), cfg), right)
  {
    var task := w.tasks[t];
    assert TaskMade(w.memory.tickNow, w.memory.last, t, task, right);
    var held := if task.Waiting? then Holding(task.orderId) else Deciding(task.orderId, task.obs, task.now);
    TaskMadeMoves(w, t, held, right);
  }

  lemma SetTimerMade(w: World, t: nat, cfg: Config, right: Rightness)
    requires cfg.fold.Valid() && MadeInv(w, right) && Enabled(w, SetTimer(t))
    ensures MadeInv(Next(w, SetTimer(t), cfg), right)
  {
    assert TaskMade(w.memory.tickNow, w.memory.last, t, w.tasks[t], right);
    TaskMadeMoves(w, t, TimedBy(w.tasks[t]), right);
  }

  lemma ReleaseMade(w: World, t: nat, cfg: Config, right: Rightness)
    requires cfg.fold.Valid() && MadeInv(w, right) && Enabled(w, Release(t))
    ensures MadeInv(Next(w, Release(t), cfg), right)
  {
  }

  /** The rightness of a decision: it is the fold of its rows on its evidence at its time. */
  function IsFold(cfg: FoldConfig): Rightness
    requires cfg.Valid()
  {
    (orderId: string, d: Decision) => d.verdict == FoldOf(d.obs, d.now, orderId, d.evidence, cfg)
  }

  lemma NextKeepsMade(w: World, move: Move, cfg: Config, right: Rightness)
    requires cfg.fold.Valid() && Inv(w) && MadeInv(w, right) && Enabled(w, move) && right == IsFold(cfg.fold)
    ensures MadeInv(Next(w, move, cfg), right)
  {
    match move
    case Deliver(o) => DeliverMade(w, o, cfg, right);
    case TickLoad => TickLoadMade(w, cfg, right);
    case Load(t, now) => LoadMade(w, t, now, cfg, right);
    case Resolve(t, evidence) => ResolveMade(w, t, evidence, cfg, right);
    case Propose(t, intent, customer) => ProposeMade(w, t, intent, customer, cfg, right);
    case Reply(t, ok) => ReplyMade(w, t, ok, cfg, right);
    case Message(t, orderId) => MessageMade(w, t, orderId, cfg, right);
    case Tick(now, ready) => TickMade(w, now, ready, cfg, right);
    case Acquire(t) => AcquireMade(w, t, cfg, right);
    case SetTimer(t) => SetTimerMade(w, t, cfg, right);
    case Release(t) => ReleaseMade(w, t, cfg, right);
    case OpenLink(_, _) =>
  }

  lemma {:induction false} RunKeepsMade(w: World, moves: seq<Move>, cfg: Config, right: Rightness)
    requires cfg.fold.Valid() && Inv(w) && MadeInv(w, right) && IsRun(w, moves, cfg) && right == IsFold(cfg.fold)
    ensures MadeInv(After(w, moves, cfg), right)
    decreases |moves|
  {
    if moves != [] {
      NextKeepsInv(w, moves[0], cfg);
      NextKeepsMade(w, moves[0], cfg, right);
      RunKeepsMade(Next(w, moves[0], cfg), moves[1..], cfg, right);
    }
  }

  lemma ReachedMade(moves: seq<Move>, cfg: Config)
    requires cfg.fold.Valid() && IsRun(INITIAL, moves, cfg)
    ensures Inv(Reached(moves, cfg)) && MadeInv(Reached(moves, cfg), IsFold(cfg.fold))
  {
    StartsMade(IsFold(cfg.fold));
    ReachedInv(moves, cfg);
    RunKeepsMade(INITIAL, moves, cfg, IsFold(cfg.fold));
  }

  lemma StartsMade(right: Rightness)
    ensures Inv(INITIAL) && MadeInv(INITIAL, right)
  {
  }

  // -------------------------------------------------------------------------- theorems

  /** In every reachable state the last decision on an order is the fold of stored rows of that order, on
      the evidence it had and at its own time; the model enters a verdict through the evidence only. */
  lemma DecisionsAreFolds(moves: seq<Move>, cfg: Config, orderId: string)
    requires cfg.fold.Valid() && IsRun(INITIAL, moves, cfg) && orderId in Reached(moves, cfg).memory.last
    ensures var m := Reached(moves, cfg).memory;
            var d := m.last[orderId];
            && d.verdict == FoldOf(d.obs, d.now, orderId, d.evidence, cfg.fold)
            && d.obs != [] && forall r :: r in d.obs ==> r in m.rows && r.orderId == orderId
  {
    ReachedMade(moves, cfg);
    var m := Reached(moves, cfg).memory;
    assert IsFold(cfg.fold)(orderId, m.last[orderId]);
  }

  lemma SnapshotIdentified(m: Memory, orderId: string, obs: seq<Observation>)
    requires RowsInv(m) && Snapshot(m.rows, orderId, obs)
    ensures KeyIdentifies(obs)
  {
    forall o, p | o in obs && p in obs && SameKey(o, p) ensures o == p {
      var i :| 0 <= i < |m.rows| && m.rows[i] == o;
      var j :| 0 <= j < |m.rows| && m.rows[j] == p;
      assert i == j;
    }
  }

  /** Over every interleaving, one set of events yields each action at most once: every outcome is keyed
      on stored rows of its order, and two that acted with the same action never on the same rows. */
  lemma SameEventsActOnce(moves: seq<Move>, cfg: Config, i: nat, j: nat)
    requires cfg.fold.Valid() && IsRun(INITIAL, moves, cfg)
    requires var outcomes := Reached(moves, cfg).memory.ledger.outcomes;
             && i < j < |outcomes| && Acts(outcomes[i]) && Acts(outcomes[j]) && outcomes[i].action == outcomes[j].action
    ensures var m := Reached(moves, cfg).memory;
            var x, y := m.ledger.outcomes[i], m.ledger.outcomes[j];
            && KeyedOn(m.rows, x) && KeyedOn(m.rows, y)
            && forall a, b :: CleanSnapshot(m.rows, x.orderId, a) && x.idemKey == DecisionKey(a, x.action)
                              && CleanSnapshot(m.rows, y.orderId, b) && y.idemKey == DecisionKey(b, y.action)
                              ==> !SameElements(a, b)
  {
    ReachedMade(moves, cfg);
    KeyedApart(Reached(moves, cfg).memory, i, j);
  }

  lemma KeyedApart(m: Memory, i: nat, j: nat)
    requires MemoryInv(m) && OutcomesKeyed(m.rows, m.ledger.outcomes)
    requires var outcomes := m.ledger.outcomes;
             && i < j < |outcomes| && Acts(outcomes[i]) && Acts(outcomes[j]) && outcomes[i].action == outcomes[j].action
    ensures var x, y := m.ledger.outcomes[i], m.ledger.outcomes[j];
            && KeyedOn(m.rows, x) && KeyedOn(m.rows, y)
            && forall a, b :: CleanSnapshot(m.rows, x.orderId, a) && x.idemKey == DecisionKey(a, x.action)
                              && CleanSnapshot(m.rows, y.orderId, b) && y.idemKey == DecisionKey(b, y.action)
                              ==> !SameElements(a, b)
  {
    var x, y := m.ledger.outcomes[i], m.ledger.outcomes[j];
    assert x in m.ledger.outcomes && y in m.ledger.outcomes && x.idemKey != y.idemKey;
    forall a, b | CleanSnapshot(m.rows, x.orderId, a) && x.idemKey == DecisionKey(a, x.action)
                  && CleanSnapshot(m.rows, y.orderId, b) && y.idemKey == DecisionKey(b, y.action)
      ensures !SameElements(a, b)
    {
      SnapshotIdentified(m, x.orderId, a);
      if SameElements(a, b) {
        SameEventsSameKey(a, b, x.action);
      }
    }
  }

  // ------------------------------------------------------------------ the end of a wait

  /** The failure a waiting decision waits on. */
  function WaitedOn(obs: seq<Observation>): Payment
    requires WithStatus(StateOf(obs).payments, Failed) != []
  {
    LatestFailure(WithStatus(StateOf(obs).payments, Failed))
  }

  /** The order's rows hold a failure later than the one waited on. */
  ghost predicate FailedSince(rows: seq<Observation>, orderId: string, waited: seq<Observation>) {
    && WithStatus(StateOf(waited).payments, Failed) != [] && WaitedOn(waited).failedAt.Some?
    && exists r :: r in rows && r.orderId == orderId && r.eventType == PaymentFailed
                   && r.eventTime > WaitedOn(waited).failedAt.value
  }

  lemma FailureIsARow(rows: seq<Observation>, orderId: string, obs: seq<Observation>, p: Payment, after: int)
    requires Snapshot(rows, orderId, obs) && p in StateOf(obs).payments && p.failedAt.Some? && p.failedAt.value > after
    ensures exists r :: r in rows && r.orderId == orderId && r.eventType == PaymentFailed && r.eventTime > after
  {
    FailureFromEvent(CanonicalOrder(obs));
    CanonicalOrderElements(obs);
    var o :| o in CanonicalOrder(obs) && o.eventType == PaymentFailed && o.eventTime == p.failedAt.value;
    assert o in rows;
  }

  /** Two decisions on an order, the later at or after the recheck of the earlier: when both wait, the
      later one's rows hold a newer failure. */
  lemma SecondWaitSawFailure(rows: seq<Observation>, orderId: string, d: Decision, e: Decision, cfg: FoldConfig)
    requires cfg.Valid() && Snapshot(rows, orderId, e.obs)
    requires d.verdict == FoldOf(d.obs, d.now, orderId, d.evidence, cfg)
    requires e.verdict == FoldOf(e.obs, e.now, orderId, e.evidence, cfg)
    requires Deferred(d.verdict) && d.verdict.recheckAt.value <= e.now && e.verdict.verdict == PendingTat
    ensures FailedSince(rows, orderId, d.obs)
  {
    PendingShape(d.obs, d.now, orderId, d.evidence, cfg);
    PendingShape(e.obs, e.now, orderId, e.evidence, cfg);
    var p, q := WaitedOn(d.obs), WaitedOn(e.obs);
    WaitingAgainNeedsNewerFailure(d.obs, d.now, d.evidence, e.obs, e.now, e.evidence, orderId, cfg, p, q);
    FailureIsARow(rows, orderId, e.obs, q, p.failedAt.value);
  }

  /** The order's last decision waits and its recheck has come by the tick's time. */
  predicate Due(m: Memory, orderId: string) {
    && orderId in m.last && Deferred(m.last[orderId].verdict)
    && m.last[orderId].verdict.recheckAt.value <= m.tickNow
  }

  /** In every run, what the tick decides of an order whose recheck has come is no further wait, unless the
      order's rows hold a failure newer than the one waited on. */
  lemma TickEndsTheWait(moves: seq<Move>, cfg: Config)
    requires cfg.fold.Valid() && IsRun(INITIAL, moves, cfg)
    requires var w := Reached(moves, cfg);
             && TICK in w.tasks && HasVerdict(w.tasks[TICK])
             && Due(w.memory, w.tasks[TICK].orderId)
    ensures var w := Reached(moves, cfg);
            var task := w.tasks[TICK];
            task.verdict.verdict != PendingTat
              || FailedSince(w.memory.rows, task.orderId, w.memory.last[task.orderId].obs)
  {
    ReachedMade(moves, cfg);
    TickVerdictEndsTheWait(Reached(moves, cfg), cfg, IsFold(cfg.fold));
  }

  lemma TickVerdictEndsTheWait(w: World, cfg: Config, right: Rightness)
    requires cfg.fold.Valid() && Inv(w) && MadeInv(w, right) && right == IsFold(cfg.fold)
    requires TICK in w.tasks && HasVerdict(w.tasks[TICK]) && Due(w.memory, w.tasks[TICK].orderId)
    ensures var task := w.tasks[TICK];
            task.verdict.verdict != PendingTat
              || FailedSince(w.memory.rows, task.orderId, w.memory.last[task.orderId].obs)
  {
    var m, task := w.memory, w.tasks[TICK];
    assert TaskInv(m, TICK, task) && TaskMade(m.tickNow, m.last, TICK, task, right);
    if task.verdict.verdict == PendingTat {
      SecondWaitSawFailure(m.rows, task.orderId, m.last[task.orderId], Made(task), cfg.fold);
    }
  }

  /** The same of the decision once it is recorded: the tick's step that replaces a due wait replaces it
      by another verdict, unless a newer failure has been stored. */
  lemma TickReplacesTheWait(moves: seq<Move>, move: Move, cfg: Config)
    requires cfg.fold.Valid() && IsRun(INITIAL, moves, cfg) && Enabled(Reached(moves, cfg), move)
    requires (move.Propose? || move.Reply?) && move.task == TICK
    requires Due(Reached(moves, cfg).memory, Reached(moves, cfg).tasks[TICK].orderId)
    requires Next(Reached(moves, cfg), move, cfg).tasks[TICK].Writing?
    ensures var was, orderId := Reached(moves, cfg).memory, Reached(moves, cfg).tasks[TICK].orderId;
            var now := Next(Reached(moves, cfg), move, cfg).memory;
            && orderId in now.last
            && (now.last[orderId].verdict.verdict != PendingTat
                || FailedSince(now.rows, orderId, was.last[orderId].obs))
  {
    TickEndsTheWait(moves, cfg);
  }

  // ------------------------------------------------------------------------- freshness

  /** What the task decides on covers its order's last decision. */
  predicate SeesLast(w: World, t: nat)
    requires t in w.tasks && HasObs(w.tasks[t])
  {
    Covers(w.tasks[t].obs, w.memory.last, w.tasks[t].orderId)
  }

  /** A handler loads under the lock, so its decision always rests on every row the last decision on the
      order rested on. */
  lemma HandlersSeeAll(moves: seq<Move>, cfg: Config, t: nat)
    requires cfg.fold.Valid() && IsRun(INITIAL, moves, cfg)
    requires var w := Reached(moves, cfg); t in w.tasks && t != TICK && HasObs(w.tasks[t])
    ensures SeesLast(Reached(moves, cfg), t)
  {
    ReachedMade(moves, cfg);
    var w := Reached(moves, cfg);
    assert TaskMade(w.memory.tickNow, w.memory.last, t, w.tasks[t], IsFold(cfg.fold));
  }

  /** What a decision's step may change: its own task, which keeps what it has loaded, and once it is recorded
      its order's last decision. */
  ghost predicate DecidesFor(w: World, x: World, u: nat, after: Task)
    requires u in w.tasks && HasVerdict(w.tasks[u])
  {
    var task := w.tasks[u];
    && x.tasks == w.tasks[u := after] && HasObs(after) && after.orderId == task.orderId && after.obs == task.obs
    && (if after.Writing? then x.memory.last == w.memory.last[task.orderId := Made(task)]
        else after.Calling? && x.memory.last == w.memory.last)
  }

  lemma ProposalDecides(w: World, u: nat, intent: RecoveryIntent, customer: CustomerContext, cfg: Config)
    returns (after: Task)
    requires cfg.fold.Valid() && Enabled(w, Propose(u, intent, customer))
    ensures DecidesFor(w, Next(w, Propose(u, intent, customer), cfg), u, after)
  {
    match Attempted(w.memory, w.tasks[u], intent, customer, cfg)
    case Done(_) => after := WrittenBy(w.tasks[u]);
    case Awaiting(base) => after := CallingFor(w.tasks[u], base);
  }

  lemma ReplyDecides(w: World, u: nat, ok: bool, cfg: Config)
    requires cfg.fold.Valid() && Enabled(w, Reply(u, ok))
    ensures DecidesFor(w, Next(w, Reply(u, ok), cfg), u, WrittenBy(w.tasks[u]))
  {
  }

  lemma MoveDecides(w: World, move: Move, cfg: Config) returns (after: Task)
    requires cfg.fold.Valid() && Enabled(w, move) && (move.Propose? || move.Reply?)
    ensures DecidesFor(w, Next(w, move, cfg), move.task, after)
  {
    match move
    case Propose(u, intent, customer) => after := ProposalDecides(w, u, intent, customer, cfg);
    case Reply(u, ok) =>
      after := WrittenBy(w.tasks[u]);
      ReplyDecides(w, u, ok, cfg);
  }

  lemma PreloadStaysAStep(w: World, move: Move, cfg: Config)
    requires cfg.fold.Valid() && Enabled(w, move) && TICK in w.tasks && w.tasks[TICK].Preloaded?
             && move != Acquire(TICK)
    ensures TICK in Next(w, move, cfg).tasks && Next(w, move, cfg).tasks[TICK] == w.tasks[TICK]
  {
    if move.Propose? || move.Reply? {
      var after := MoveDecides(w, move, cfg);
    } else {
      OtherMovePassesPreload(w, move, cfg);
    }
  }

  lemma OtherMovePassesPreload(w: World, move: Move, cfg: Config)
    requires cfg.fold.Valid() && Enabled(w, move) && !move.Propose? && !move.Reply?
    requires TICK in w.tasks && w.tasks[TICK].Preloaded? && move != Acquire(TICK)
    ensures TICK in Next(w, move, cfg).tasks && Next(w, move, cfg).tasks[TICK] == w.tasks[TICK]
  {
    match move
    case Load(t, now) =>
    case Release(t) =>
    case _ =>
  }

  /** What the tick has loaded stays as it is until it has the lock. */
  lemma {:induction false} PreloadStays(w: World, moves: seq<Move>, cfg: Config)
    requires cfg.fold.Valid() && IsRun(w, moves, cfg) && TICK in w.tasks && w.tasks[TICK].Preloaded?
    requires Acquire(TICK) !in moves
    ensures TICK in After(w, moves, cfg).tasks && After(w, moves, cfg).tasks[TICK] == w.tasks[TICK]
    decreases |moves|
  {
    if moves != [] {
      var next := Next(w, moves[0], cfg);
      PreloadStaysAStep(w, moves[0], cfg);
      PreloadStays(next, moves[1..], cfg);
    }
  }

  /** The task is at work on what it had loaded, and until it records its decision the order's last decision
      is what it was. */
  ghost predicate StillAtWork(w: World, x: World, t: nat)
    requires t in w.tasks && HasObs(w.tasks[t])
  {
    var orderId := w.tasks[t].orderId;
    && t in x.tasks && HasObs(x.tasks[t]) && Holds(x.tasks[t])
    && x.tasks[t].orderId == orderId && x.tasks[t].obs == w.tasks[t].obs
    && (x.tasks[t].Writing? || (!w.tasks[t].Writing? && SameLast(w.memory, x.memory, orderId)))
  }

  predicate SameLast(m: Memory, n: Memory, orderId: string) {
    if orderId in m.last then orderId in n.last && n.last[orderId] == m.last[orderId] else orderId !in n.last
  }

  lemma OtherMoveLeavesAtWork(w: World, move: Move, t: nat, cfg: Config)
    requires cfg.fold.Valid() && Enabled(w, move) && !move.Propose? && !move.Reply? && move != Release(t)
    requires t in w.tasks && HasObs(w.tasks[t]) && Holds(w.tasks[t])
    ensures StillAtWork(w, Next(w, move, cfg), t)
  {
  }

  lemma DecisionLeavesAtWork(w: World, x: World, u: nat, after: Task, t: nat)
    requires u in w.tasks && HasVerdict(w.tasks[u]) && !w.tasks[u].Writing? && DecidesFor(w, x, u, after)
    requires t in w.tasks && HasObs(w.tasks[t]) && Holds(w.tasks[t])
    requires u == t || w.tasks[u].orderId != w.tasks[t].orderId
    ensures StillAtWork(w, x, t)
  {
  }

  /** Once a task holds the lock no other decides on its order. */
  lemma LockKeepsAtWork(w: World, move: Move, t: nat, cfg: Config)
    requires cfg.fold.Valid() && Inv(w) && Enabled(w, move) && move != Release(t)
    requires t in w.tasks && HasObs(w.tasks[t]) && Holds(w.tasks[t])
    ensures StillAtWork(w, Next(w, move, cfg), t)
  {
    if !move.Propose? && !move.Reply? {
      OtherMoveLeavesAtWork(w, move, t, cfg);
    } else {
      var after := MoveDecides(w, move, cfg);
      DecidersExclude(w, t, move.task);
      DecisionLeavesAtWork(w, Next(w, move, cfg), move.task, after, t);
    }
  }

  lemma {:induction false} RunKeepsAtWork(w: World, moves: seq<Move>, t: nat, cfg: Config)
    requires cfg.fold.Valid() && Inv(w) && IsRun(w, moves, cfg) && Release(t) !in moves
    requires t in w.tasks && HasObs(w.tasks[t]) && Holds(w.tasks[t])
    ensures StillAtWork(w, After(w, moves, cfg), t)
    decreases |moves|
  {
    if moves != [] {
      var x := Next(w, moves[0], cfg);
      NextKeepsInv(w, moves[0], cfg);
      LockKeepsAtWork(w, moves[0], t, cfg);
      RunKeepsAtWork(x, moves[1..], t, cfg);
      AtWorkJoins(w, x, After(x, moves[1..], cfg), t);
    }
  }

  lemma AtWorkJoins(w: World, x: World, y: World, t: nat)
    requires t in w.tasks && HasObs(w.tasks[t]) && StillAtWork(w, x, t) && StillAtWork(x, y, t)
    ensures StillAtWork(w, y, t)
  {
  }

  lemma DecidersExclude(w: World, t: nat, u: nat)
    requires Inv(w) && t in w.tasks && Holds(w.tasks[t]) && u in w.tasks && Holds(w.tasks[u])
    ensures u == t || w.tasks[u].orderId != w.tasks[t].orderId
  {
    if u != t {
      LocksExclude(w, t, u);
    }
  }

  /** The tick loads here, takes the lock after `between`, and `held` leads to before it lets go. */
  ghost predicate TickWorks(w: World, between: seq<Move>, held: seq<Move>, cfg: Config)
    requires cfg.fold.Valid()
  {
    && Enabled(w, TickLoad) && TICK in Next(w, TickLoad, cfg).tasks
    && IsRun(Next(w, TickLoad, cfg), between, cfg) && Acquire(TICK) !in between
    && Enabled(AtLock(w, between, cfg), Acquire(TICK))
    && IsRun(Next(AtLock(w, between, cfg), Acquire(TICK), cfg), held, cfg) && Release(TICK) !in held
  }

  /** Where the tick takes the lock, and where it is after that. */
  ghost function AtLock(w: World, between: seq<Move>, cfg: Config): World
    requires cfg.fold.Valid() && Enabled(w, TickLoad) && IsRun(Next(w, TickLoad, cfg), between, cfg)
  {
    After(Next(w, TickLoad, cfg), between, cfg)
  }

  ghost function AtWork(w: World, between: seq<Move>, held: seq<Move>, cfg: Config): World
    requires cfg.fold.Valid() && TickWorks(w, between, held, cfg)
  {
    After(Next(AtLock(w, between, cfg), Acquire(TICK), cfg), held, cfg)
  }

  lemma TickLoadsRows(w: World, cfg: Config)
    requires cfg.fold.Valid() && Enabled(w, TickLoad) && TICK in Next(w, TickLoad, cfg).tasks
    ensures var x := Next(w, TickLoad, cfg);
            && x.tasks[TICK] == Preloaded(w.memory.batch[0], RowsOf(w.memory.rows, w.memory.batch[0]), w.memory.tickNow)
            && x.memory.last == w.memory.last
  {
  }

  lemma TickTakesLock(w: World, cfg: Config)
    requires cfg.fold.Valid() && TICK in w.tasks && w.tasks[TICK].Preloaded? && Enabled(w, Acquire(TICK))
    ensures var x, task := Next(w, Acquire(TICK), cfg), w.tasks[TICK];
            && TICK in x.tasks && x.tasks[TICK] == Deciding(task.orderId, task.obs, task.now)
            && x.memory.last == w.memory.last
  {
  }

  /** What the tick works on is what it loaded, and the order's last decision stays as it was at the lock. */
  lemma TickStaysAtWork(w: World, between: seq<Move>, held: seq<Move>, cfg: Config)
    requires cfg.fold.Valid() && Inv(w) && TickWorks(w, between, held, cfg)
    ensures var lock, x := AtLock(w, between, cfg), AtWork(w, between, held, cfg);
            var orderId := w.memory.batch[0];
            && TICK in x.tasks && HasObs(x.tasks[TICK]) && Holds(x.tasks[TICK])
            && x.tasks[TICK].orderId == orderId && x.tasks[TICK].obs == RowsOf(w.memory.rows, orderId)
            && (!x.tasks[TICK].Writing? ==> SameLast(lock.memory, x.memory, orderId))
  {
    var loaded, lock := Next(w, TickLoad, cfg), AtLock(w, between, cfg);
    NextKeepsInv(w, TickLoad, cfg);
    TickLoadsRows(w, cfg);
    PreloadStays(loaded, between, cfg);
    RunKeepsInv(loaded, between, cfg);
    NextKeepsInv(lock, Acquire(TICK), cfg);
    TickTakesLock(lock, cfg);
    RunKeepsAtWork(Next(lock, Acquire(TICK), cfg), held, TICK, cfg);
  }

  /** The last decision on the order rests on rows of the order. */
  lemma LastRestsOnOwnRows(w: World, orderId: string, right: Rightness)
    requires MadeInv(w, right) && orderId in w.memory.last
    ensures forall r :: r in w.memory.last[orderId].obs ==> r.orderId == orderId
  {
  }

  lemma CoverIff(rows: seq<Observation>, orderId: string, last: map<string, Decision>)
    requires orderId in last ==> forall r :: r in last[orderId].obs ==> r.orderId == orderId
    ensures Covers(RowsOf(rows, orderId), last, orderId)
            <==> (orderId in last ==> forall r :: r in last[orderId].obs ==> r in rows)
  {
    RowsOfElements(rows, orderId);
  }

  /** The rows that the order's last decision at the lock rests on were all stored when the tick loaded. */
  predicate RestsOnLoaded(loaded: Memory, lock: Memory, orderId: string) {
    orderId in lock.last ==> forall r :: r in lock.last[orderId].obs ==> r in loaded.rows
  }

  /** The tick loads before the lock. Until it records its decision, what it decides on covers the order's
      last decision exactly when that decision rests on no row stored after the load; so it does when no
      decision on the order came between the load and the lock. */
  lemma TickSeesAllIff(before: seq<Move>, between: seq<Move>, held: seq<Move>, cfg: Config)
    requires cfg.fold.Valid() && IsRun(INITIAL, before, cfg) && TickWorks(Reached(before, cfg), between, held, cfg)
    ensures var loaded, lock := Reached(before, cfg), AtLock(Reached(before, cfg), between, cfg);
            var x, orderId := AtWork(loaded, between, held, cfg), loaded.memory.batch[0];
            && TICK in x.tasks && HasObs(x.tasks[TICK]) && Holds(x.tasks[TICK]) && x.tasks[TICK].orderId == orderId
            && (!x.tasks[TICK].Writing? ==>
                  && (SeesLast(x, TICK) <==> RestsOnLoaded(loaded.memory, lock.memory, orderId))
                  && (SameLast(loaded.memory, lock.memory, orderId) ==> SeesLast(x, TICK)))
  {
    var loaded := Reached(before, cfg);
    var right, orderId := IsFold(cfg.fold), loaded.memory.batch[0];
    ReachedMade(before, cfg);
    TickStaysAtWork(loaded, between, held, cfg);
    LockMade(loaded, between, cfg, right);
    TickCovers(loaded, AtLock(loaded, between, cfg), AtWork(loaded, between, held, cfg), right);
  }

  lemma LockMade(w: World, between: seq<Move>, cfg: Config, right: Rightness)
    requires cfg.fold.Valid() && Inv(w) && MadeInv(w, right) && right == IsFold(cfg.fold)
    requires Enabled(w, TickLoad) && IsRun(Next(w, TickLoad, cfg), between, cfg)
    ensures MadeInv(AtLock(w, between, cfg), right)
  {
    NextKeepsInv(w, TickLoad, cfg);
    NextKeepsMade(w, TickLoad, cfg, right);
    RunKeepsMade(Next(w, TickLoad, cfg), between, cfg, right);
  }

  /** On the three worlds alone. */
  lemma TickCovers(loaded: World, lock: World, x: World, right: Rightness)
    requires MadeInv(loaded, right) && MadeInv(lock, right) && loaded.memory.batch != [] && TICK in x.tasks
    requires HasObs(x.tasks[TICK]) && x.tasks[TICK].orderId == loaded.memory.batch[0]
    requires x.tasks[TICK].obs == RowsOf(loaded.memory.rows, loaded.memory.batch[0])
    requires !x.tasks[TICK].Writing? ==> SameLast(lock.memory, x.memory, loaded.memory.batch[0])
    ensures var orderId := loaded.memory.batch[0];
            !x.tasks[TICK].Writing? ==>
              && (SeesLast(x, TICK) <==> RestsOnLoaded(loaded.memory, lock.memory, orderId))
              && (SameLast(loaded.memory, lock.memory, orderId) ==> SeesLast(x, TICK))
  {
    var orderId := loaded.memory.batch[0];
    if !x.tasks[TICK].Writing? {
      if orderId in lock.memory.last {
        LastRestsOnOwnRows(lock, orderId, right);
      }
      CoverIff(loaded.memory.rows, orderId, x.memory.last);
      if orderId in loaded.memory.last {
        assert CleanSnapshot(loaded.memory.rows, orderId, loaded.memory.last[orderId].obs);
      }
    }
  }

  // ---------------------------------------------------------------------------- triage

  /** No handler is past triage on rows whose latest event is outside the payment lifecycle. */
  ghost predicate TriageHeld(w: World) {
    forall t :: t in w.tasks && t != TICK && HasObs(w.tasks[t]) ==> w.tasks[t].obs != [] && !Ignored(w.tasks[t].obs)
  }

  lemma NextKeepsTriage(w: World, move: Move, cfg: Config)
    requires cfg.fold.Valid() && TriageHeld(w) && Enabled(w, move)
    requires forall t :: t in w.tasks && w.tasks[t].Preloaded? ==> t == TICK
    ensures TriageHeld(Next(w, move, cfg))
    ensures forall t :: t in Next(w, move, cfg).tasks && Next(w, move, cfg).tasks[t].Preloaded? ==> t == TICK
  {
    if move.Propose? || move.Reply? {
      var after := MoveDecides(w, move, cfg);
      DecisionKeepsTriage(w, Next(w, move, cfg), move.task, after);
    } else {
      OtherMoveKeepsTriage(w, move, cfg);
    }
  }

  lemma DecisionKeepsTriage(w: World, x: World, t: nat, after: Task)
    requires TriageHeld(w) && t in w.tasks && HasVerdict(w.tasks[t]) && DecidesFor(w, x, t, after)
    requires forall u :: u in w.tasks && w.tasks[u].Preloaded? ==> u == TICK
    ensures TriageHeld(x) && forall u :: u in x.tasks && x.tasks[u].Preloaded? ==> u == TICK
  {
  }

  lemma OtherMoveKeepsTriage(w: World, move: Move, cfg: Config)
    requires cfg.fold.Valid() && TriageHeld(w) && Enabled(w, move) && !move.Propose? && !move.Reply?
    requires forall t :: t in w.tasks && w.tasks[t].Preloaded? ==> t == TICK
    ensures TriageHeld(Next(w, move, cfg))
    ensures forall t :: t in Next(w, move, cfg).tasks && Next(w, move, cfg).tasks[t].Preloaded? ==> t == TICK
  {
    match move
    case Load(t, now) =>
    case Release(t) =>
    case _ =>
  }

  lemma {:induction false} RunKeepsTriage(w: World, moves: seq<Move>, cfg: Config)
    requires cfg.fold.Valid() && TriageHeld(w) && IsRun(w, moves, cfg)
    requires forall t :: t in w.tasks && w.tasks[t].Preloaded? ==> t == TICK
    ensures TriageHeld(After(w, moves, cfg))
    decreases |moves|
  {
    if moves != [] {
      NextKeepsTriage(w, moves[0], cfg);
      RunKeepsTriage(Next(w, moves[0], cfg), moves[1..], cfg);
    }
  }

  /** In every run a handler decides only where triage lets it; the tick asks no triage. */
  lemma HandlersPassTriage(moves: seq<Move>, cfg: Config)
    requires cfg.fold.Valid() && IsRun(INITIAL, moves, cfg)
    ensures TriageHeld(Reached(moves, cfg))
  {
    RunKeepsTriage(INITIAL, moves, cfg);
  }
}
