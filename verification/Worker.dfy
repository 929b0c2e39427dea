/** One worker process as a transition system: handlers and the scheduler tick interleave at every
    await, holding one lock per order (services/worker.py, services/pipeline.py, services/executor/main.py,
    services/scheduler/main.py). Task 0 is the tick; every other task handles bus messages. */
module Worker {
  import opened Common
  import opened Events
  import opened Verdicts
  import opened Fold
  import opened Gate
  import opened Executor
  import opened Scheduler
  import opened Pipeline

  const TICK: nat := 0

  /** Where a task stands: the awaits of `handle`, `tick_scheduler`, `_decide` and `process`. */
  datatype Task =
    | Waiting(orderId: string)                                            // a handler before the lock
    | Preloaded(orderId: string, obs: seq<Observation>, now: int)         // the tick, loaded before the lock
    | Holding(orderId: string)                                            // lock held, rows not loaded
    | Deciding(orderId: string, obs: seq<Observation>, now: int)          // in the resolver
    | Resolved(orderId: string, obs: seq<Observation>, now: int, evidence: seq<Evidence>, verdict: VerdictResult)
    | Timed(orderId: string, obs: seq<Observation>, now: int, evidence: seq<Evidence>, verdict: VerdictResult)
    | Calling(orderId: string, obs: seq<Observation>, now: int, evidence: seq<Evidence>, verdict: VerdictResult,
              base: Outcome)                                              // in an outside service
    | Writing(orderId: string, obs: seq<Observation>, now: int, evidence: seq<Evidence>, verdict: VerdictResult)
                                                                          // decided, writing rows

  /** A decision as it is recorded: the rows it rests on, when and on what evidence it was made. */
  datatype Decision = Decision(obs: seq<Observation>, now: int, evidence: seq<Evidence>, verdict: VerdictResult)

  /** What the tasks share. */
  datatype Memory = Memory(
    rows: seq<Observation>,            // the observation store
    locks: map<string, nat>,           // order -> the task holding its lock
    ledger: Ledger,
    timers: map<string, int>,
    batch: seq<string>,                // due orders the tick has popped and not yet decided
    tickNow: int,
    last: map<string, Decision>,       // the last decision on each order
    links: set<(string, string)>)      // (source order, order created by its link)

  datatype World = World(memory: Memory, tasks: map<nat, Task>)

  datatype Config = Config(fold: FoldConfig, exec: ExecConfig)

  /** The moves: every choice of the environment, the models and the services is in the label. */
  datatype Move =
    | Deliver(o: Observation)
    | Message(task: nat, orderId: string)
    | Tick(now: int, ready: seq<string>)
    | TickLoad
    | Acquire(task: nat)
    | Load(task: nat, now: int)
    | Resolve(task: nat, evidence: seq<Evidence>)
    | SetTimer(task: nat)
    | Propose(task: nat, intent: RecoveryIntent, customer: CustomerContext)
    | Reply(task: nat, ok: bool)
    | Release(task: nat)
    | OpenLink(source: string, created: string)

  const INITIAL := World(Memory([], map[], EMPTY_LEDGER, map[], [], 0, map[], {}), map[])

  /** Triage drops a resolution whose latest event is outside the payment lifecycle. */
  predicate Ignored(obs: seq<Observation>)
    requires obs != []
  {
    LatestEvent(obs).eventType.OtherEvent?
  }

  /** `max(observations, key=event_time)` */
  function LatestEvent(obs: seq<Observation>): Observation
    requires obs != []
  {
    if |obs| == 1 then obs[0]
    else
      var o := LatestEvent(obs[..|obs| - 1]);
      if o.eventTime < obs[|obs| - 1].eventTime then obs[|obs| - 1] else o
  }

  /** No event of the order is later than the one triage looks at, and none before it as late. */
  lemma {:induction false} LatestEventIsFirst(obs: seq<Observation>) returns (i: nat)
    requires obs != []
    ensures i < |obs| && LatestEvent(obs) == obs[i]
    ensures forall j :: 0 <= j < |obs| ==> obs[j].eventTime <= obs[i].eventTime
    ensures forall j :: 0 <= j < i ==> obs[j].eventTime < obs[i].eventTime
  {
    i := 0;
    if |obs| > 1 {
      var front := obs[..|obs| - 1];
      var k := LatestEventIsFirst(front);
      assert forall j :: 0 <= j < |front| ==> front[j] == obs[j];
      i := if front[k].eventTime < obs[|obs| - 1].eventTime then |obs| - 1 else k;
    }
  }

  predicate Holds(t: Task) { !t.Waiting? && !t.Preloaded? }

  predicate MadeByLink(m: Memory, b: string) { exists l :: l in m.links && l.1 == b }

  /** Every payment on an order created by a link has a stored row carrying the stamp. */
  ghost predicate Stamped(rows: seq<Observation>, b: string) {
    forall r :: r in rows && r.orderId == b && Truthy(r.paymentId) ==>
      exists q :: q in rows && q.orderId == b && q.paymentId == r.paymentId && q.sourceOrder != ""
  }

  /** What deliveries satisfy: an event id belongs to one order, and a link's notes come back on
      the payments made on it. */
  ghost predicate Plausible(m: Memory, o: Observation) {
    && (forall r :: r in m.rows && r.eventId == o.eventId ==> r.orderId == o.orderId)
    && (MadeByLink(m, o.orderId) ==> Stamped(Appended(m.rows, o), o.orderId))
  }

  /** A link was handed to the provider for this order: the call succeeded, or failed after the link had
      already been created. */
  ghost predicate LinkSent(m: Memory, source: string) {
    exists o :: o in m.ledger.outcomes && o.orderId == source && o.action == SendRecoveryLink
                && (o.status == Executed || o.status == FailedCall)
  }

  /** Or the call is under way. */
  ghost predicate LinkInFlight(w: World, source: string) {
    exists t :: t in w.tasks && w.tasks[t].Calling? && w.tasks[t].orderId == source
                && w.tasks[t].base.action == SendRecoveryLink
  }

  ghost predicate NoRows(rows: seq<Observation>, orderId: string) {
    forall r :: r in rows ==> r.orderId != orderId
  }

  ghost predicate Enabled(w: World, move: Move) {
    var m := w.memory;
    match move
    case Deliver(o) => Plausible(m, o)
    case Message(t, orderId) => t != TICK && t !in w.tasks && orderId != ""
    case Tick(now, ready) => TICK !in w.tasks && m.batch == [] && IsDueList(m.timers, now, ready)
    case TickLoad => TICK !in w.tasks && m.batch != []
    case Acquire(t) => t in w.tasks && !Holds(w.tasks[t]) && w.tasks[t].orderId !in m.locks
    case Load(t, _) => t in w.tasks && w.tasks[t].Holding?
    case Resolve(t, _) => t in w.tasks && w.tasks[t].Deciding?
    case SetTimer(t) => t in w.tasks && w.tasks[t].Resolved?
    case Propose(t, _, _) => t in w.tasks && w.tasks[t].Timed?
    case Reply(t, _) => t in w.tasks && w.tasks[t].Calling?
    case Release(t) => t in w.tasks && w.tasks[t].Writing?
    case OpenLink(source, created) => (LinkSent(m, source) || LinkInFlight(w, source)) && NoRows(m.rows, created)
  }

  function Dropped<K, V>(m: map<K, V>, k: K): map<K, V> { map j | j in m && j != k :: m[j] }

  /** A recheck time of None or zero is not scheduled. */
  predicate Rechecks(v: VerdictResult) { v.recheckAt.Some? && v.recheckAt.value != 0 }

  function TimerSet(m: Memory, orderId: string, v: VerdictResult): Memory {
    if Rechecks(v) then m.(timers := ScheduledAt(m.timers, orderId, v.recheckAt.value)) else m
  }

  /** The gate and the first part of the executor, which no await separates. The pipeline keys the
      intent on the evidence it was reached on, whatever the model said. */
  function Attempted(m: Memory, task: Task, intent: RecoveryIntent, customer: CustomerContext, cfg: Config): Attempt
    requires task.Timed? && cfg.fold.Valid()
  {
    var keyed := intent.(evidenceVersion := Some(EvidenceVersion(task.obs)));
    var d := DecisionOf(keyed, task.obs, task.now, customer, m.ledger.executed.Keys, cfg.fold, task.evidence);
    Begin(m.ledger, d, keyed, task.orderId, TargetPayment(StateOf(task.obs), task.verdict.verdict), cfg.exec)
  }

  predicate HasVerdict(t: Task) { t.Resolved? || t.Timed? || t.Calling? || t.Writing? }

  /** What the task has decided. */
  function Made(t: Task): Decision
    requires HasVerdict(t)
  {
    Decision(t.obs, t.now, t.evidence, t.verdict)
  }

  /** The same decision, further on. */
  function TimedBy(t: Task): Task
    requires HasVerdict(t)
  {
    Timed(t.orderId, t.obs, t.now, t.evidence, t.verdict)
  }

  function CallingFor(t: Task, base: Outcome): Task
    requires HasVerdict(t)
  {
    Calling(t.orderId, t.obs, t.now, t.evidence, t.verdict, base)
  }

  function WrittenBy(t: Task): Task
    requires HasVerdict(t)
  {
    Writing(t.orderId, t.obs, t.now, t.evidence, t.verdict)
  }

  function Decided(m: Memory, ledger: Ledger, orderId: string, d: Decision): Memory {
    m.(ledger := ledger, last := m.last[orderId := d])
  }

  /** A task ends: it frees its lock, and the tick moves on in its batch. */
  function Freed(m: Memory, t: nat, orderId: string): Memory {
    m.(locks := Dropped(m.locks, orderId), batch := if t == TICK && m.batch != [] then m.batch[1..] else m.batch)
  }

  ghost function Next(w: World, move: Move, cfg: Config): World
    requires Enabled(w, move) && cfg.fold.Valid()
  {
    var m := w.memory;
    match move
    case Deliver(o) => w.(memory := m.(rows := Appended(m.rows, o)))
    case Message(t, orderId) => w.(tasks := w.tasks[t := Waiting(orderId)])
    case Tick(now, ready) => w.(memory := m.(batch := ready, timers := Without(m.timers, ready), tickNow := now))
    case TickLoad =>
      var obs := RowsOf(m.rows, m.batch[0]);
      if obs == [] then w.(memory := m.(batch := m.batch[1..]))
      else w.(tasks := w.tasks[TICK := Preloaded(m.batch[0], obs, m.tickNow)])
    case Acquire(t) =>
      var task := w.tasks[t];
      World(m.(locks := m.locks[task.orderId := t]),
            w.tasks[t := if task.Waiting? then Holding(task.orderId) else Deciding(task.orderId, task.obs, task.now)])
    case Load(t, now) =>
      var orderId := w.tasks[t].orderId;
      var obs := RowsOf(m.rows, orderId);
      if obs == [] || Ignored(obs) then World(Freed(m, t, orderId), Dropped(w.tasks, t))
      else w.(tasks := w.tasks[t := Deciding(orderId, obs, now)])
    case Resolve(t, evidence) =>
      var task := w.tasks[t];
      var v := FoldOf(task.obs, task.now, task.orderId, evidence, cfg.fold);
      w.(tasks := w.tasks[t := Resolved(task.orderId, task.obs, task.now, evidence, v)])
    case SetTimer(t) =>
      var task := w.tasks[t];
      World(TimerSet(m, task.orderId, task.verdict), w.tasks[t := TimedBy(task)])
    case Propose(t, intent, customer) =>
      var task := w.tasks[t];
      (match Attempted(m, task, intent, customer, cfg)
       case Done(ledger) => World(Decided(m, ledger, task.orderId, Made(task)), w.tasks[t := WrittenBy(task)])
       case Awaiting(base) => w.(tasks := w.tasks[t := CallingFor(task, base)]))
    case Reply(t, ok) =>
      var task := w.tasks[t];
      World(Decided(m, Resume(m.ledger, task.base, ok), task.orderId, Made(task)), w.tasks[t := WrittenBy(task)])
    case Release(t) => World(Freed(m, t, w.tasks[t].orderId), Dropped(w.tasks, t))
    case OpenLink(source, created) => w.(memory := m.(links := m.links + {(source, created)}))
  }

  ghost predicate IsRun(w: World, moves: seq<Move>, cfg: Config)
    requires cfg.fold.Valid()
    decreases |moves|
  {
    moves == [] || (Enabled(w, moves[0]) && IsRun(Next(w, moves[0], cfg), moves[1..], cfg))
  }

  ghost function After(w: World, moves: seq<Move>, cfg: Config): World
    requires cfg.fold.Valid() && IsRun(w, moves, cfg)
    decreases |moves|
  {
    if moves == [] then w else After(Next(w, moves[0], cfg), moves[1..], cfg)
  }
}
