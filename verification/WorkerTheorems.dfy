/** What every interleaving of the worker keeps: each decision acts at most once, a wait is never
    forgotten, and a link is never sent for an order a link created. */
module WorkerTheorems {
  import opened Common
  import opened Banking
  import opened Events
  import opened Verdicts
  import opened Fold
  import opened FoldTheorems
  import opened Gate
  import opened GateTheorems
  import opened Executor
  import opened Scheduler
  import opened Pipeline
  import opened Worker

  // ----------------------------------------------------------- the memory's invariant

  ghost predicate HasRows(rows: seq<Observation>, orderId: string) { !NoRows(rows, orderId) }

  ghost predicate RowsInv(m: Memory) {
    UniqueRows(m.rows) && forall r, s :: r in m.rows && s in m.rows && r.eventId == s.eventId ==> r.orderId == s.orderId
  }

  ghost predicate LedgerInv(m: Memory) {
    LedgerOk(m.ledger) && forall o :: o in m.ledger.outcomes ==> HasRows(m.rows, o.orderId)
  }

  /** A wait that has to be come back to. */
  predicate Deferred(v: VerdictResult) { v.verdict == PendingTat && Rechecks(v) }

  /** There is a timer no later than the recheck. */
  ghost predicate InTimers(m: Memory, orderId: string, v: VerdictResult) {
    Rechecks(v) ==> orderId in m.timers && m.timers[orderId] <= v.recheckAt.value
  }

  /** Or the order is in the batch being ticked. */
  ghost predicate Covered(m: Memory, orderId: string, v: VerdictResult) {
    InTimers(m, orderId, v) || orderId in m.batch
  }

  ghost predicate LastInv(m: Memory) {
    forall o :: o in m.last ==> HasRows(m.rows, o) && Covered(m, o, m.last[o].verdict)
  }

  ghost predicate LinksInv(m: Memory) {
    && (forall l :: l in m.links ==> HasRows(m.rows, l.0) && !MadeByLink(m, l.0))
    && (forall b :: MadeByLink(m, b) ==> Stamped(m.rows, b))
    && (forall o :: o in m.ledger.outcomes && o.action == SendRecoveryLink ==> !MadeByLink(m, o.orderId))
  }

  ghost predicate MemoryInv(m: Memory) {
    RowsInv(m) && LedgerInv(m) && LastInv(m) && LinksInv(m)
  }

  // ---------------------------------------------------------------- a task's invariant

  /** A task past its lock owns the lock of its order; the tick works on the head of its batch. */
  ghost predicate TaskLocked(m: Memory, t: nat, task: Task) {
    && (Holds(task) ==> task.orderId in m.locks && m.locks[task.orderId] == t)
    && (t == TICK ==> m.batch != [] && task.orderId == m.batch[0] && !task.Waiting? && !task.Holding?)
  }

  predicate HasObs(t: Task) { !t.Waiting? && !t.Holding? }

  ghost predicate Snapshot(rows: seq<Observation>, orderId: string, obs: seq<Observation>) {
    obs != [] && forall o :: o in obs ==> o in rows && o.orderId == orderId
  }

  /** Payments in a snapshot of a link's order come with a stamped observation. */
  ghost predicate StampedObs(obs: seq<Observation>) {
    (exists r :: r in obs && Truthy(r.paymentId)) ==> exists q :: q in obs && q.sourceOrder != ""
  }

  ghost predicate TaskRead(m: Memory, task: Task) {
    HasObs(task) ==> Snapshot(m.rows, task.orderId, task.obs) && (MadeByLink(m, task.orderId) ==> StampedObs(task.obs))
  }

  /** The key was taken of events of this order. */
  ghost predicate KeyOf(rows: seq<Observation>, orderId: string, k: Key) {
    k.version != [] && exists r :: r in rows && r.orderId == orderId && r.eventId == k.version[0].0
  }

  ghost predicate TaskCalls(m: Memory, task: Task) {
    task.Calling? ==>
      && task.base.orderId == task.orderId && MoneyMoving(task.base.action) && task.base.status == FailedCall
      && task.base.idemKey !in m.ledger.executed && KeyOf(m.rows, task.orderId, task.base.idemKey)
      && (task.base.action == SendRecoveryLink ==> !MadeByLink(m, task.orderId))
  }

  /** Past its timer a decision is covered: by a timer, or for a handler by the tick's batch. */
  ghost predicate TaskTimed(m: Memory, t: nat, task: Task) {
    && (task.Timed? || task.Calling? || task.Writing? ==>
          if t == TICK then InTimers(m, task.orderId, task.verdict) else Covered(m, task.orderId, task.verdict))
    && (task.Writing? ==> task.orderId in m.last && m.last[task.orderId] == Made(task))
  }

  ghost predicate TaskInv(m: Memory, t: nat, task: Task) {
    TaskLocked(m, t, task) && TaskRead(m, task) && TaskCalls(m, task) && TaskTimed(m, t, task)
  }

  ghost predicate Inv(w: World) {
    MemoryInv(w.memory) && forall t :: t in w.tasks ==> TaskInv(w.memory, t, w.tasks[t])
  }

  // --------------------------------------------------------- moves that only move a task

  lemma TaskMoves(w: World, t: nat, task: Task)
    requires Inv(w) && TaskInv(w.memory, t, task)
    ensures Inv(w.(tasks := w.tasks[t := task]))
  {
  }

  /** Rows of an order carry the stamp when the store does. */
  lemma LoadedSnapshot(rows: seq<Observation>, orderId: string, obs: seq<Observation>)
    requires obs == RowsOf(rows, orderId) && obs != []
    ensures Snapshot(rows, orderId, obs) && (Stamped(rows, orderId) ==> StampedObs(obs))
  {
    RowsOfElements(rows, orderId);
    if Stamped(rows, orderId) {
      forall r | r in obs && Truthy(r.paymentId) ensures exists q :: q in obs && q.sourceOrder != "" {
        var q :| q in rows && q.orderId == orderId && q.paymentId == r.paymentId && q.sourceOrder != "";
        assert q in obs;
      }
    }
  }

  // ------------------------------------------------------------- moves of the memory

  lemma DeliverKeeps(m: Memory, o: Observation)
    requires MemoryInv(m) && Plausible(m, o)
    ensures MemoryInv(m.(rows := Appended(m.rows, o)))
  {
    var n := m.(rows := Appended(m.rows, o));
    AppendedUnique(m.rows, o);
    AppendedKeeps(m.rows, o);
    DeliverKeepsStamps(m, o);
    assert forall b :: MadeByLink(n, b) ==> MadeByLink(m, b);
    assert forall x, v :: Covered(m, x, v) ==> Covered(n, x, v);
  }

  lemma DeliverKeepsStamps(m: Memory, o: Observation)
    requires Plausible(m, o) && forall b :: MadeByLink(m, b) ==> Stamped(m.rows, b)
    ensures forall b :: MadeByLink(m, b) ==> Stamped(Appended(m.rows, o), b)
  {
    forall b | MadeByLink(m, b) ensures Stamped(Appended(m.rows, o), b) {
      if b != o.orderId { StampedElsewhere(m.rows, o, b); }
    }
  }

  lemma AppendedKeeps(rows: seq<Observation>, o: Observation)
    ensures forall r :: r in rows ==> r in Appended(rows, o)
    ensures forall b :: HasRows(rows, b) ==> HasRows(Appended(rows, o), b)
  {
    forall b | HasRows(rows, b) ensures HasRows(Appended(rows, o), b) {
      var r :| r in rows && r.orderId == b;
      assert r in Appended(rows, o);
    }
  }

  lemma StampedElsewhere(rows: seq<Observation>, o: Observation, b: string)
    requires Stamped(rows, b) && o.orderId != b
    ensures Stamped(Appended(rows, o), b)
  {
    AppendedKeeps(rows, o);
  }

  lemma DeliverKeepsTask(m: Memory, o: Observation, t: nat, task: Task)
    requires TaskInv(m, t, task)
    ensures TaskInv(m.(rows := Appended(m.rows, o)), t, task)
  {
    AppendedKeeps(m.rows, o);
  }

  lemma SnapshotHasRows(m: Memory, task: Task)
    requires TaskRead(m, task) && HasObs(task)
    ensures HasRows(m.rows, task.orderId)
  {
    assert task.obs[0] in m.rows;
  }

  lemma OpenLinkKeeps(m: Memory, source: string, created: string)
    requires MemoryInv(m) && HasRows(m.rows, source) && !MadeByLink(m, source) && NoRows(m.rows, created)
    ensures MemoryInv(m.(links := m.links + {(source, created)}))
  {
    var n := m.(links := m.links + {(source, created)});
    assert forall b :: MadeByLink(n, b) ==> MadeByLink(m, b) || b == created;
    assert forall x, v :: Covered(m, x, v) ==> Covered(n, x, v);
  }

  /** An order whose link went out, or is going out, is no link's own order. */
  lemma LinkSource(w: World, source: string)
    requires Inv(w) && (LinkSent(w.memory, source) || LinkInFlight(w, source))
    ensures HasRows(w.memory.rows, source) && !MadeByLink(w.memory, source)
  {
    if LinkInFlight(w, source) {
      var t :| t in w.tasks && w.tasks[t].Calling? && w.tasks[t].orderId == source
               && w.tasks[t].base.action == SendRecoveryLink;
      assert TaskInv(w.memory, t, w.tasks[t]);
    }
  }

  lemma OpenLinkKeepsTask(m: Memory, source: string, created: string, t: nat, task: Task)
    requires NoRows(m.rows, created) && TaskInv(m, t, task)
    ensures TaskInv(m.(links := m.links + {(source, created)}), t, task)
  {
    if HasObs(task) {
      SnapshotHasRows(m, task);
    }
  }

  lemma TickKeeps(m: Memory, now: int, ready: seq<string>)
    requires MemoryInv(m) && m.batch == [] && IsDueList(m.timers, now, ready)
    ensures MemoryInv(m.(batch := ready, timers := Without(m.timers, ready), tickNow := now))
  {
  }

  lemma TickKeepsTask(m: Memory, now: int, ready: seq<string>, t: nat, task: Task)
    requires t != TICK && m.batch == [] && IsDueList(m.timers, now, ready) && TaskInv(m, t, task)
    ensures TaskInv(m.(batch := ready, timers := Without(m.timers, ready), tickNow := now), t, task)
  {
  }

  /** Dropping the head of the batch uncovers nobody else. */
  lemma TailCovers(m: Memory, orderId: string, v: VerdictResult)
    requires m.batch != [] && Covered(m, orderId, v) && (orderId == m.batch[0] ==> InTimers(m, orderId, v))
    ensures Covered(m.(batch := m.batch[1..]), orderId, v)
  {
  }

  lemma EmptyHeadDropped(m: Memory)
    requires MemoryInv(m) && m.batch != [] && NoRows(m.rows, m.batch[0])
    ensures MemoryInv(m.(batch := m.batch[1..]))
  {
    forall o | o in m.last ensures Covered(m.(batch := m.batch[1..]), o, m.last[o].verdict) {
      TailCovers(m, o, m.last[o].verdict);
    }
  }

  lemma EmptyHeadDroppedTask(m: Memory, t: nat, task: Task)
    requires m.batch != [] && NoRows(m.rows, m.batch[0]) && t != TICK && TaskInv(m, t, task)
    ensures TaskInv(m.(batch := m.batch[1..]), t, task)
  {
    if task.Timed? || task.Calling? || task.Writing? {
      SnapshotHasRows(m, task);
      TailCovers(m, task.orderId, task.verdict);
    }
  }

  lemma TimerSetKeeps(m: Memory, orderId: string, v: VerdictResult)
    requires MemoryInv(m)
    ensures MemoryInv(TimerSet(m, orderId, v))
    ensures InTimers(TimerSet(m, orderId, v), orderId, v)
  {
    forall o | o in m.last ensures Covered(TimerSet(m, orderId, v), o, m.last[o].verdict) {
      assert Covered(m, o, m.last[o].verdict);
    }
  }

  lemma TimerSetKeepsTask(m: Memory, orderId: string, v: VerdictResult, t: nat, task: Task)
    requires TaskInv(m, t, task)
    ensures TaskInv(TimerSet(m, orderId, v), t, task)
  {
  }

  // --------------------------------------------------------------- deciding and ending

  lemma KeysOfOrdersDiffer(m: Memory, a: string, b: string, k: Key, l: Key)
    requires RowsInv(m) && KeyOf(m.rows, a, k) && KeyOf(m.rows, b, l) && a != b
    ensures k != l
  {
  }

  /** The ledger gained at most this key, of this order. */
  ghost predicate LedgerStep(m: Memory, ledger: Ledger, orderId: string, k: Key) {
    && LedgerOk(ledger) && KeyOf(m.rows, orderId, k)
    && (forall j :: j in ledger.executed ==> j in m.ledger.executed || j == k)
    && (forall o :: o in ledger.outcomes && o !in m.ledger.outcomes ==>
          o.orderId == orderId && (o.action == SendRecoveryLink ==> !MadeByLink(m, orderId)))
  }

  lemma DecidedKeeps(m: Memory, ledger: Ledger, orderId: string, d: Decision, k: Key)
    requires MemoryInv(m) && LedgerStep(m, ledger, orderId, k) && HasRows(m.rows, orderId)
             && Covered(m, orderId, d.verdict)
    ensures MemoryInv(Decided(m, ledger, orderId, d))
  {
    var n := Decided(m, ledger, orderId, d);
    assert forall b :: MadeByLink(n, b) <==> MadeByLink(m, b);
    assert forall x, u :: Covered(m, x, u) ==> Covered(n, x, u);
  }

  lemma DecidedKeepsTask(m: Memory, ledger: Ledger, orderId: string, d: Decision, k: Key, t: nat, task: Task)
    requires RowsInv(m) && LedgerStep(m, ledger, orderId, k) && TaskInv(m, t, task)
    requires Holds(task) ==> task.orderId != orderId
    ensures TaskInv(Decided(m, ledger, orderId, d), t, task)
  {
    var n := Decided(m, ledger, orderId, d);
    assert forall b :: MadeByLink(n, b) <==> MadeByLink(m, b);
    if task.Calling? {
      KeysOfOrdersDiffer(m, orderId, task.orderId, k, task.base.idemKey);
    }
  }

  lemma DecidedWrites(m: Memory, ledger: Ledger, t: nat, task: Task)
    requires (task.Timed? || task.Calling?) && TaskInv(m, t, task)
    ensures TaskInv(Decided(m, ledger, task.orderId, Made(task)), t, WrittenBy(task))
    ensures Covered(m, task.orderId, task.verdict) && HasRows(m.rows, task.orderId)
  {
    SnapshotHasRows(m, task);
  }

  lemma EvidenceKeyOfOrder(m: Memory, task: Task, k: Key)
    requires HasObs(task) && TaskRead(m, task) && k.version == EvidenceVersion(task.obs)
    ensures KeyOf(m.rows, task.orderId, k)
  {
    CanonicalOrderElements(task.obs);
    var first := CanonicalOrder(task.obs)[0];
    assert first in task.obs;
  }

  /** The gate refuses a link on an order a link created. */
  lemma LinkOrdersGetNoLink(m: Memory, task: Task, intent: RecoveryIntent, customer: CustomerContext, cfg: Config)
    requires cfg.fold.Valid() && task.Timed? && TaskRead(m, task) && intent.action == SendRecoveryLink
    requires Allowed(intent, task.obs, task.now, customer, m.ledger.executed.Keys, cfg.fold, task.evidence)
    ensures !MadeByLink(m, task.orderId)
  {
    UnstampedSnapshot(task.obs, intent, task.now, customer, m.ledger.executed.Keys, cfg.fold, task.evidence);
  }

  lemma UnstampedSnapshot(obs: seq<Observation>, intent: RecoveryIntent, now: int, customer: CustomerContext,
                          seenKeys: set<Key>, cfg: FoldConfig, evidence: seq<Evidence>)
    requires cfg.Valid() && intent.action == SendRecoveryLink
    requires Allowed(intent, obs, now, customer, seenKeys, cfg, evidence)
    ensures !StampedObs(obs)
  {
    AllowedLinkIsUnstamped(intent, obs, now, customer, seenKeys, cfg, evidence);
  }

  lemma CallingTask(m: Memory, t: nat, task: Task, base: Outcome)
    requires task.Timed? && TaskInv(m, t, task)
    requires TaskCalls(m, CallingFor(task, base))
    ensures TaskInv(m, t, CallingFor(task, base))
  {
    SnapshotHasRows(m, task);
  }

  /** Gate and executor together: at most this decision's key is new, and no link leaves an order
      a link created. */
  lemma AttemptStep(m: Memory, t: nat, task: Task, intent: RecoveryIntent, customer: CustomerContext, cfg: Config)
    requires cfg.fold.Valid() && LedgerInv(m) && task.Timed? && TaskInv(m, t, task)
    ensures var a := Attempted(m, task, intent, customer, cfg);
            && (a.Done? ==> exists k :: LedgerStep(m, a.ledger, task.orderId, k))
            && (a.Awaiting? ==> TaskInv(m, t, CallingFor(task, a.base)))
  {
    var keyed := intent.(evidenceVersion := Some(EvidenceVersion(task.obs)));
    var d := DecisionOf(keyed, task.obs, task.now, customer, m.ledger.executed.Keys, cfg.fold, task.evidence);
    EvidenceKeyOfOrder(m, task, d.idemKey);
    if d.allowed && keyed.action == SendRecoveryLink {
      LinkOrdersGetNoLink(m, task, keyed, customer, cfg);
    }
    var target := TargetPayment(StateOf(task.obs), task.verdict.verdict);
    BeginKeeps(m.ledger, d, keyed, task.orderId, target, cfg.exec);
    BeginStep(m, d, keyed, task.orderId, target, cfg.exec);
    var a := Begin(m.ledger, d, keyed, task.orderId, target, cfg.exec);
    if a.Awaiting? {
      CallingTask(m, t, task, a.base);
    }
  }

  lemma BeginStep(m: Memory, d: GateDecision, intent: RecoveryIntent, orderId: string, paymentId: string,
                  cfg: ExecConfig)
    requires LedgerInv(m) && KeyOf(m.rows, orderId, d.idemKey)
    requires d.allowed && intent.action == SendRecoveryLink ==> !MadeByLink(m, orderId)
    ensures var a := Begin(m.ledger, d, intent, orderId, paymentId, cfg);
            a.Done? ==> LedgerStep(m, a.ledger, orderId, d.idemKey)
  {
    BeginKeeps(m.ledger, d, intent, orderId, paymentId, cfg);
  }

  lemma ResumeStep(m: Memory, task: Task, ok: bool)
    requires LedgerInv(m) && task.Calling? && TaskCalls(m, task)
    ensures LedgerStep(m, Resume(m.ledger, task.base, ok), task.orderId, task.base.idemKey)
  {
    ResumeKeeps(m.ledger, task.base, ok);
  }

  lemma FreedKeeps(m: Memory, t: nat, task: Task)
    requires MemoryInv(m) && TaskInv(m, t, task) && (task.Writing? || task.Holding?)
    ensures MemoryInv(Freed(m, t, task.orderId))
  {
    var n := Freed(m, t, task.orderId);
    assert forall b :: MadeByLink(n, b) <==> MadeByLink(m, b);
    forall o | o in m.last ensures Covered(n, o, m.last[o].verdict) {
      if t == TICK { TailCovers(m, o, m.last[o].verdict); }
    }
  }

  lemma FreedKeepsTask(m: Memory, t: nat, task: Task, u: nat, other: Task)
    requires TaskInv(m, t, task) && TaskInv(m, u, other) && u != t && (task.Writing? || task.Holding?)
    ensures TaskInv(Freed(m, t, task.orderId), u, other)
  {
    var n := Freed(m, t, task.orderId);
    assert forall b :: MadeByLink(n, b) <==> MadeByLink(m, b);
    if t == TICK && (other.Timed? || other.Calling? || other.Writing?) {
      TailCovers(m, other.orderId, other.verdict);
    }
  }

  // -------------------------------------------------------------------------- all moves

  lemma TickLoadKeeps(w: World, cfg: Config)
    requires cfg.fold.Valid() && Inv(w) && Enabled(w, TickLoad)
    ensures Inv(Next(w, TickLoad, cfg))
  {
    var m := w.memory;
    var obs := RowsOf(m.rows, m.batch[0]);
    RowsOfElements(m.rows, m.batch[0]);
    if obs == [] {
      forall r | r in m.rows ensures r.orderId != m.batch[0] {
        assert r in obs <==> r.orderId == m.batch[0];
      }
      EmptyHeadDropped(m);
      forall u | u in w.tasks ensures TaskInv(m.(batch := m.batch[1..]), u, w.tasks[u]) {
        EmptyHeadDroppedTask(m, u, w.tasks[u]);
      }
    } else {
      LoadedSnapshot(m.rows, m.batch[0], obs);
      TaskMoves(w, TICK, Preloaded(m.batch[0], obs, m.tickNow));
    }
  }

  lemma AcquireKeeps(w: World, t: nat, cfg: Config)
    requires cfg.fold.Valid() && Inv(w) && Enabled(w, Acquire(t))
    ensures Inv(Next(w, Acquire(t), cfg))
  {
    var m, task := w.memory, w.tasks[t];
    var n := m.(locks := m.locks[task.orderId := t]);
    LockTaken(m, task.orderId, t);
    forall u | u in w.tasks && u != t ensures TaskInv(n, u, w.tasks[u]) {
      LockTakenTask(m, task.orderId, t, u, w.tasks[u]);
    }
    assert TaskInv(m, t, task);
    AcquiredTask(m, t, task);
  }

  lemma LockTaken(m: Memory, orderId: string, t: nat)
    requires MemoryInv(m)
    ensures MemoryInv(m.(locks := m.locks[orderId := t]))
  {
    var n := m.(locks := m.locks[orderId := t]);
    assert forall b :: MadeByLink(n, b) <==> MadeByLink(m, b);
    assert forall x, u :: Covered(m, x, u) ==> Covered(n, x, u);
  }

  lemma LockTakenTask(m: Memory, orderId: string, t: nat, u: nat, other: Task)
    requires TaskInv(m, u, other) && orderId !in m.locks
    ensures TaskInv(m.(locks := m.locks[orderId := t]), u, other)
  {
    assert forall b :: MadeByLink(m.(locks := m.locks[orderId := t]), b) <==> MadeByLink(m, b);
  }

  lemma AcquiredTask(m: Memory, t: nat, task: Task)
    requires TaskInv(m, t, task) && (task.Waiting? || task.Preloaded?)
    ensures TaskInv(m.(locks := m.locks[task.orderId := t]), t,
                    if task.Waiting? then Holding(task.orderId) else Deciding(task.orderId, task.obs, task.now))
  {
    assert forall b :: MadeByLink(m.(locks := m.locks[task.orderId := t]), b) <==> MadeByLink(m, b);
  }

  lemma EndKeeps(w: World, t: nat)
    requires Inv(w) && t in w.tasks && (w.tasks[t].Writing? || w.tasks[t].Holding?)
    ensures Inv(World(Freed(w.memory, t, w.tasks[t].orderId), Dropped(w.tasks, t)))
  {
    var m, task := w.memory, w.tasks[t];
    FreedKeeps(m, t, task);
    forall u | u in w.tasks && u != t ensures TaskInv(Freed(m, t, task.orderId), u, w.tasks[u]) {
      FreedKeepsTask(m, t, task, u, w.tasks[u]);
    }
  }

  lemma LoadKeeps(w: World, t: nat, now: int, cfg: Config)
    requires cfg.fold.Valid() && Inv(w) && Enabled(w, Load(t, now))
    ensures Inv(Next(w, Load(t, now), cfg))
  {
    var m, orderId := w.memory, w.tasks[t].orderId;
    var obs := RowsOf(m.rows, orderId);
    if obs == [] || Ignored(obs) {
      EndKeeps(w, t);
    } else {
      LoadedSnapshot(m.rows, orderId, obs);
      assert TaskInv(m, t, w.tasks[t]);
      TaskMoves(w, t, Deciding(orderId, obs, now));
    }
  }

  lemma SetTimerKeeps(w: World, t: nat, cfg: Config)
    requires cfg.fold.Valid() && Inv(w) && Enabled(w, SetTimer(t))
    ensures Inv(Next(w, SetTimer(t), cfg))
  {
    var m, task := w.memory, w.tasks[t];
    TimerSetKeeps(m, task.orderId, task.verdict);
    forall u | u in w.tasks ensures TaskInv(TimerSet(m, task.orderId, task.verdict), u, w.tasks[u]) {
      TimerSetKeepsTask(m, task.orderId, task.verdict, u, w.tasks[u]);
    }
  }

  lemma ResolveKeeps(w: World, t: nat, evidence: seq<Evidence>, cfg: Config)
    requires cfg.fold.Valid() && Inv(w) && Enabled(w, Resolve(t, evidence))
    ensures Inv(Next(w, Resolve(t, evidence), cfg))
  {
    assert TaskInv(w.memory, t, w.tasks[t]);
    TaskMoves(w, t, Next(w, Resolve(t, evidence), cfg).tasks[t]);
  }

  lemma LocksExclude(w: World, t: nat, u: nat)
    requires Inv(w) && t in w.tasks && u in w.tasks && t != u && Holds(w.tasks[t]) && Holds(w.tasks[u])
    ensures w.tasks[t].orderId != w.tasks[u].orderId
  {
    assert TaskInv(w.memory, t, w.tasks[t]) && TaskInv(w.memory, u, w.tasks[u]);
  }

  lemma DecideKeeps(w: World, t: nat, ledger: Ledger, k: Key)
    requires Inv(w) && t in w.tasks && (w.tasks[t].Timed? || w.tasks[t].Calling?)
    requires LedgerStep(w.memory, ledger, w.tasks[t].orderId, k)
    ensures var task := w.tasks[t];
            Inv(World(Decided(w.memory, ledger, task.orderId, Made(task)), w.tasks[t := WrittenBy(task)]))
  {
    var m, task := w.memory, w.tasks[t];
    DecidedWrites(m, ledger, t, task);
    DecidedKeeps(m, ledger, task.orderId, Made(task), k);
    forall u | u in w.tasks && u != t ensures TaskInv(Decided(m, ledger, task.orderId, Made(task)), u, w.tasks[u]) {
      if Holds(w.tasks[u]) { LocksExclude(w, t, u); }
      DecidedKeepsTask(m, ledger, task.orderId, Made(task), k, u, w.tasks[u]);
    }
  }

  lemma ProposeKeeps(w: World, t: nat, intent: RecoveryIntent, customer: CustomerContext, cfg: Config)
    requires cfg.fold.Valid() && Inv(w) && Enabled(w, Propose(t, intent, customer))
    ensures Inv(Next(w, Propose(t, intent, customer), cfg))
  {
    var m, task := w.memory, w.tasks[t];
    AttemptStep(m, t, task, intent, customer, cfg);
    match Attempted(m, task, intent, customer, cfg)
    case Done(ledger) =>
      var k :| LedgerStep(m, ledger, task.orderId, k);
      DecideKeeps(w, t, ledger, k);
    case Awaiting(base) =>
      TaskMoves(w, t, CallingFor(task, base));
  }

  lemma ReplyKeeps(w: World, t: nat, ok: bool, cfg: Config)
    requires cfg.fold.Valid() && Inv(w) && Enabled(w, Reply(t, ok))
    ensures Inv(Next(w, Reply(t, ok), cfg))
  {
    var m, task := w.memory, w.tasks[t];
    assert TaskInv(m, t, task);
    ResumeStep(m, task, ok);
    DecideKeeps(w, t, Resume(m.ledger, task.base, ok), task.base.idemKey);
  }

  lemma MemoryMovesKeep(w: World, move: Move, cfg: Config)
    requires cfg.fold.Valid() && Inv(w) && Enabled(w, move) && (move.Deliver? || move.OpenLink? || move.Tick?)
    ensures Inv(Next(w, move, cfg))
  {
    var m, x := w.memory, Next(w, move, cfg);
    match move
    case Deliver(o) =>
      DeliverKeeps(m, o);
      forall u | u in w.tasks ensures TaskInv(x.memory, u, w.tasks[u]) { DeliverKeepsTask(m, o, u, w.tasks[u]); }
    case OpenLink(source, created) =>
      LinkSource(w, source);
      OpenLinkKeeps(m, source, created);
      forall u | u in w.tasks ensures TaskInv(x.memory, u, w.tasks[u]) {
        OpenLinkKeepsTask(m, source, created, u, w.tasks[u]);
      }
    case Tick(now, ready) =>
      TickKeeps(m, now, ready);
      forall u | u in w.tasks ensures TaskInv(x.memory, u, w.tasks[u]) { TickKeepsTask(m, now, ready, u, w.tasks[u]); }
    case _ =>
  }

  /** Every move keeps the invariant. */
  lemma NextKeepsInv(w: World, move: Move, cfg: Config)
    requires cfg.fold.Valid() && Inv(w) && Enabled(w, move)
    ensures Inv(Next(w, move, cfg))
  {
    match move
    case Message(t, orderId) => TaskMoves(w, t, Waiting(orderId));
    case Resolve(t, evidence) => ResolveKeeps(w, t, evidence, cfg);
    case TickLoad => TickLoadKeeps(w, cfg);
    case Acquire(t) => AcquireKeeps(w, t, cfg);
    case Load(t, now) => LoadKeeps(w, t, now, cfg);
    case SetTimer(t) => SetTimerKeeps(w, t, cfg);
    case Propose(t, intent, customer) => ProposeKeeps(w, t, intent, customer, cfg);
    case Reply(t, ok) => ReplyKeeps(w, t, ok, cfg);
    case Release(t) => EndKeeps(w, t);
    case _ => MemoryMovesKeep(w, move, cfg);
  }

  lemma {:induction false} RunKeepsInv(w: World, moves: seq<Move>, cfg: Config)
    requires cfg.fold.Valid() && Inv(w) && IsRun(w, moves, cfg)
    ensures Inv(After(w, moves, cfg))
    decreases |moves|
  {
    if moves != [] {
      NextKeepsInv(w, moves[0], cfg);
      RunKeepsInv(Next(w, moves[0], cfg), moves[1..], cfg);
    }
  }

  // --------------------------------------------------------------------------- theorems

  ghost function Reached(moves: seq<Move>, cfg: Config): World
    requires cfg.fold.Valid() && IsRun(INITIAL, moves, cfg)
  {
    After(INITIAL, moves, cfg)
  }

  lemma ReachedInv(moves: seq<Move>, cfg: Config)
    requires cfg.fold.Valid() && IsRun(INITIAL, moves, cfg)
    ensures Inv(Reached(moves, cfg))
  {
    RunKeepsInv(INITIAL, moves, cfg);
  }

  /** Over every interleaving, each idempotency key acts at most once, the keys the executor
      remembers are exactly the keys that acted, and a human's queue holds one entry for each
      escalation, hold or call that did. */
  lemma EachKeyActsOnce(moves: seq<Move>, cfg: Config)
    requires cfg.fold.Valid() && IsRun(INITIAL, moves, cfg)
    ensures var x := Reached(moves, cfg).memory.ledger;
            OneActPerKey(x.outcomes) && RemembersActs(x) && x.queue == QueueOf(x.outcomes)
  {
    ReachedInv(moves, cfg);
  }

  ghost predicate NoRepeats(obs: seq<Observation>) {
    forall i, j :: 0 <= i < j < |obs| ==> obs[i] != obs[j]
  }

  lemma CanonicalStrict(obs: seq<Observation>)
    requires KeyIdentifies(obs) && NoRepeats(obs)
    ensures StrictlySorted(CanonicalOrder(obs))
  {
    var c := CanonicalOrder(obs);
    CanonicalOrderSorts(obs);
    CanonicalOrderElements(obs);
    forall i, j | 0 <= i < j < |c| ensures !SameKey(c[i], c[j]) {
      if SameKey(c[i], c[j]) {
        assert c[i] in c && c[j] in c;
        TwiceInMultiset(c, i, j);
        OnceInMultiset(obs, c[i]);
        assert false;
      }
    }
  }

  lemma TwiceInMultiset(s: seq<Observation>, i: int, j: int)
    requires 0 <= i < j < |s| && s[i] == s[j]
    ensures multiset(s)[s[i]] >= 2
  {
    assert s == s[..j] + [s[j]] + s[j + 1..];
    assert s[..j][i] in multiset(s[..j]);
  }

  lemma {:induction false} OnceInMultiset(s: seq<Observation>, o: Observation)
    requires NoRepeats(s)
    ensures multiset(s)[o] <= 1
  {
    if s != [] {
      var front, last := s[..|s| - 1], s[|s| - 1];
      assert s == front + [last];
      OnceInMultiset(front, o);
      assert last !in front;
      assert multiset(front)[last] == 0;
    }
  }

  /** The key of an action decided on these events. */
  function DecisionKey(obs: seq<Observation>, action: Action): Key {
    Key(KeyPayment(StateOf(obs)), action, EvidenceVersion(obs))
  }

  /** Decisions of one action on the same set of events carry the same key. */
  lemma SameEventsSameKey(a: seq<Observation>, b: seq<Observation>, action: Action)
    requires SameElements(a, b) && KeyIdentifies(a) && NoRepeats(a) && NoRepeats(b)
    ensures DecisionKey(a, action) == DecisionKey(b, action)
  {
    CanonicalOrderElements(a);
    CanonicalOrderElements(b);
    CanonicalStrict(a);
    forall o, p | o in b && p in b && SameKey(o, p) ensures o == p {
      assert o in a && p in a;
    }
    CanonicalStrict(b);
    StrictUnique(CanonicalOrder(a), CanonicalOrder(b));
  }

  /** Recovery links form a forest of depth one: no order a link created is the source of a link, and
      no link is so much as attempted for one. */
  lemma LinksNeverChain(moves: seq<Move>, cfg: Config)
    requires cfg.fold.Valid() && IsRun(INITIAL, moves, cfg)
    ensures var w := Reached(moves, cfg).memory;
            && (forall l, k :: l in w.links && k in w.links ==> l.1 != k.0)
            && (forall o :: o in w.ledger.outcomes && o.action == SendRecoveryLink ==> !MadeByLink(w, o.orderId))
  {
    ReachedInv(moves, cfg);
  }

  lemma NextKeepsLinks(w: World, move: Move, cfg: Config)
    requires cfg.fold.Valid() && Enabled(w, move)
    ensures w.memory.links <= Next(w, move, cfg).memory.links
    ensures move.OpenLink? ==> (move.source, move.created) in Next(w, move, cfg).memory.links
  {
  }

  lemma {:induction false} RunKeepsLinks(w: World, moves: seq<Move>, cfg: Config)
    requires cfg.fold.Valid() && IsRun(w, moves, cfg)
    ensures w.memory.links <= After(w, moves, cfg).memory.links
    decreases |moves|
  {
    if moves != [] {
      NextKeepsLinks(w, moves[0], cfg);
      RunKeepsLinks(Next(w, moves[0], cfg), moves[1..], cfg);
    }
  }

  /** Once a link has opened an order, no link is ever attempted for that order, however the run goes on. */
  lemma OpenedOrdersGetNoLink(before: seq<Move>, source: string, created: string, after: seq<Move>, cfg: Config)
    requires cfg.fold.Valid() && IsRun(INITIAL, before, cfg) && Enabled(Reached(before, cfg), OpenLink(source, created))
    requires IsRun(Next(Reached(before, cfg), OpenLink(source, created), cfg), after, cfg)
    ensures var w := After(Next(Reached(before, cfg), OpenLink(source, created), cfg), after, cfg);
            && source != created
            && forall o :: o in w.memory.ledger.outcomes && o.action == SendRecoveryLink ==> o.orderId != created
  {
    var v := Reached(before, cfg);
    var x := Next(v, OpenLink(source, created), cfg);
    ReachedInv(before, cfg);
    LinkSource(v, source);
    NextKeepsInv(v, OpenLink(source, created), cfg);
    NextKeepsLinks(v, OpenLink(source, created), cfg);
    RunKeepsInv(x, after, cfg);
    RunKeepsLinks(x, after, cfg);
    assert MadeByLink(After(x, after, cfg).memory, created);
  }

  // ------------------------------------------------------------------------------ locks

  /** Every lock belongs to a living task at work on that order. */
  ghost predicate LocksLive(w: World) {
    forall o :: o in w.memory.locks ==>
      var t := w.memory.locks[o]; t in w.tasks && Holds(w.tasks[t]) && w.tasks[t].orderId == o
  }

  lemma AttemptKeepsTask(m: Memory, task: Task, a: Attempt)
    requires task.Timed?
    ensures Holds(WrittenBy(task)) && WrittenBy(task).orderId == task.orderId
    ensures a.Awaiting? ==> Holds(CallingFor(task, a.base)) && CallingFor(task, a.base).orderId == task.orderId
  {
  }

  lemma OtherMoveKeepsLocks(w: World, move: Move, cfg: Config)
    requires cfg.fold.Valid() && LocksLive(w) && Enabled(w, move) && !move.Propose? && !move.Reply?
    ensures LocksLive(Next(w, move, cfg))
  {
  }

  lemma ProposeKeepsLocks(w: World, t: nat, intent: RecoveryIntent, customer: CustomerContext, cfg: Config)
    requires cfg.fold.Valid() && LocksLive(w) && Enabled(w, Propose(t, intent, customer))
    ensures LocksLive(Next(w, Propose(t, intent, customer), cfg))
  {
    AttemptKeepsTask(w.memory, w.tasks[t], Attempted(w.memory, w.tasks[t], intent, customer, cfg));
  }

  lemma NextKeepsLocks(w: World, move: Move, cfg: Config)
    requires cfg.fold.Valid() && LocksLive(w) && Enabled(w, move)
    ensures LocksLive(Next(w, move, cfg))
  {
    match move
    case Propose(t, intent, customer) => ProposeKeepsLocks(w, t, intent, customer, cfg);
    case Reply(_, _) =>
    case _ => OtherMoveKeepsLocks(w, move, cfg);
  }

  lemma {:induction false} RunKeepsLocks(w: World, moves: seq<Move>, cfg: Config)
    requires cfg.fold.Valid() && LocksLive(w) && IsRun(w, moves, cfg)
    ensures LocksLive(After(w, moves, cfg))
    decreases |moves|
  {
    if moves != [] {
      NextKeepsLocks(w, moves[0], cfg);
      RunKeepsLocks(Next(w, moves[0], cfg), moves[1..], cfg);
    }
  }

  /** In every reachable state no lock has outlived its task, so an order that nobody works on is free. */
  lemma NoLockIsLost(moves: seq<Move>, cfg: Config)
    requires cfg.fold.Valid() && IsRun(INITIAL, moves, cfg)
    ensures LocksLive(Reached(moves, cfg))
  {
    RunKeepsLocks(INITIAL, moves, cfg);
  }

  // ----------------------------------------------------------------------------- timers

  /** A decision that asks for a recheck, PENDING_TAT or UNCAPTURED_AUTH, is never forgotten: its order has a timer
      no later than that, or the tick is about to decide it. */
  lemma RecheckNeverForgotten(moves: seq<Move>, cfg: Config, orderId: string)
    requires cfg.fold.Valid() && IsRun(INITIAL, moves, cfg)
    requires var m := Reached(moves, cfg).memory; orderId in m.last && Rechecks(m.last[orderId].verdict)
    ensures var m := Reached(moves, cfg).memory;
            (orderId in m.timers && m.timers[orderId] <= m.last[orderId].verdict.recheckAt.value) || orderId in m.batch
  {
    ReachedInv(moves, cfg);
  }

  /** And a tick at or after the recheck time takes the order up, once. */
  lemma TickTakesUpTheDue(moves: seq<Move>, cfg: Config, orderId: string, now: int, ready: seq<string>)
    requires cfg.fold.Valid() && IsRun(INITIAL, moves, cfg)
    requires var w := Reached(moves, cfg);
             && orderId in w.memory.last && Rechecks(w.memory.last[orderId].verdict)
             && w.memory.last[orderId].verdict.recheckAt.value <= now && Enabled(w, Tick(now, ready))
    ensures var m := Next(Reached(moves, cfg), Tick(now, ready), cfg).memory;
            orderId in m.batch && orderId !in m.timers && m.tickNow == now
  {
    RecheckNeverForgotten(moves, cfg, orderId);
  }

  /** The failure a wait is about. */
  ghost predicate WaitsOn(obs: seq<Observation>, p: Payment) {
    WithStatus(StateOf(obs).payments, Failed) != [] && p == LatestFailure(WithStatus(StateOf(obs).payments, Failed))
  }

  lemma PendingShape(obs: seq<Observation>, now: int, orderId: string, evidence: seq<Evidence>, cfg: FoldConfig)
    requires cfg.Valid() && FoldOf(obs, now, orderId, evidence, cfg).verdict == PendingTat
    ensures WithStatus(StateOf(obs).payments, Failed) != []
    ensures var p := LatestFailure(WithStatus(StateOf(obs).payments, Failed));
            && p.failedAt.Some?
            && now <= TatDeadline(p.failedAt.value, cfg.tatBankingDays, cfg.holidays)
            && FoldOf(obs, now, orderId, evidence, cfg).recheckAt
               == Some(TatDeadline(p.failedAt.value, cfg.tatBankingDays, cfg.holidays) + 60)
  {
    PendingRuling(StateOf(obs), now, evidence, cfg);
  }

  lemma PendingRuling(st: Order, now: int, evidence: seq<Evidence>, cfg: FoldConfig)
    requires cfg.Valid() && Judge(st, now, evidence, cfg).verdict == PendingTat
    ensures WithStatus(st.payments, Failed) != []
    ensures var p := LatestFailure(WithStatus(st.payments, Failed));
            && p.failedAt.Some?
            && now <= TatDeadline(p.failedAt.value, cfg.tatBankingDays, cfg.holidays)
            && Judge(st, now, evidence, cfg).recheckAt
               == Some(TatDeadline(p.failedAt.value, cfg.tatBankingDays, cfg.holidays) + 60)
  {
    NeverPendingByOrder(st, now, evidence, cfg);
    if WithStatus(st.payments, Failed) == [] {
      NeverPendingWithoutFailure(st, now, evidence, cfg);
    }
    PendingFailure(LatestFailure(WithStatus(st.payments, Failed)), now, evidence, cfg);
  }

  lemma NeverPendingByOrder(st: Order, now: int, evidence: seq<Evidence>, cfg: FoldConfig)
    requires cfg.Valid()
    ensures var r := JudgeOrder(st, now, evidence, cfg); r.Some? ==> r.value.verdict != PendingTat
  {
  }

  lemma NeverPendingWithoutFailure(st: Order, now: int, evidence: seq<Evidence>, cfg: FoldConfig)
    requires cfg.Valid() && WithStatus(st.payments, Failed) == []
    ensures JudgeOrder(st, now, evidence, cfg).Some?
  {
  }

  lemma PendingFailure(p: Payment, now: int, evidence: seq<Evidence>, cfg: FoldConfig)
    requires cfg.Valid() && JudgeFailure(p, now, evidence, cfg).verdict == PendingTat
    ensures p.failedAt.Some?
    ensures now <= TatDeadline(p.failedAt.value, cfg.tatBankingDays, cfg.holidays)
    ensures JudgeFailure(p, now, evidence, cfg).recheckAt
            == Some(TatDeadline(p.failedAt.value, cfg.tatBankingDays, cfg.holidays) + 60)
  {
  }

  /** A decision at or after the recheck of a wait, on whatever evidence, waits again only for a
      failure newer than the one waited on. */
  lemma WaitingAgainNeedsNewerFailure(obs: seq<Observation>, now: int, evidence: seq<Evidence>,
                                      laterObs: seq<Observation>, later: int, laterEvidence: seq<Evidence>,
                                      orderId: string, cfg: FoldConfig, p: Payment, q: Payment)
    requires cfg.Valid() && WaitsOn(obs, p) && WaitsOn(laterObs, q)
    requires var r := FoldOf(obs, now, orderId, evidence, cfg);
             r.verdict == PendingTat && r.recheckAt.Some? && r.recheckAt.value <= later
    requires FoldOf(laterObs, later, orderId, laterEvidence, cfg).verdict == PendingTat
    ensures p.failedAt.Some? && q.failedAt.Some? && p.failedAt.value < q.failedAt.value
  {
    PendingShape(obs, now, orderId, evidence, cfg);
    PendingShape(laterObs, later, orderId, laterEvidence, cfg);
    if q.failedAt.value <= p.failedAt.value {
      DeadlineMonotone(q.failedAt.value, p.failedAt.value, cfg.tatBankingDays, cfg.tatBankingDays, cfg.holidays);
    }
  }
}
