/** Runs put together from single moves: a delivery, and a handler from its message to its release. */
module SmallRuns {
  import opened Common
  import opened Events
  import opened Verdicts
  import opened Fold
  import opened Gate
  import opened Executor
  import opened Pipeline
  import opened SmallLinks
  import opened Worker
  import opened WorkerTheorems

  // -------------------------------------------------------------------- runs put together

  lemma {:induction false} RunsJoin(w: World, a: seq<Move>, b: seq<Move>, cfg: Config)
    requires cfg.fold.Valid() && IsRun(w, a, cfg) && IsRun(After(w, a, cfg), b, cfg)
    ensures IsRun(w, a + b, cfg) && After(w, a + b, cfg) == After(After(w, a, cfg), b, cfg)
    decreases |a|, 0
  {
    if a == [] {
      assert a + b == b;
    } else {
      var move, rest := a[0], a[1..];
      assert a == [move] + rest && a + b == [move] + (rest + b);
      RunsJoinBehind(w, move, rest, b, cfg);
    }
  }

  lemma {:induction false} RunsJoinBehind(w: World, move: Move, a: seq<Move>, b: seq<Move>, cfg: Config)
    requires cfg.fold.Valid() && IsRun(w, [move] + a, cfg) && IsRun(After(w, [move] + a, cfg), b, cfg)
    ensures IsRun(w, [move] + (a + b), cfg)
    ensures After(w, [move] + (a + b), cfg) == After(After(w, [move] + a, cfg), b, cfg)
    decreases |a|, 1
  {
    assert ([move] + a)[1..] == a && ([move] + a)[0] == move;
    var x := Next(w, move, cfg);
    RunsJoin(x, a, b, cfg);
    FirstMove(w, move, a + b, cfg);
  }

  lemma FirstMove(w: World, move: Move, rest: seq<Move>, cfg: Config)
    requires cfg.fold.Valid() && Enabled(w, move) && IsRun(Next(w, move, cfg), rest, cfg)
    ensures IsRun(w, [move] + rest, cfg) && After(w, [move] + rest, cfg) == After(Next(w, move, cfg), rest, cfg)
  {
    assert ([move] + rest)[1..] == rest;
  }

  /** These moves are a run to this world. */
  ghost predicate Leads(w: World, moves: seq<Move>, x: World, cfg: Config)
    requires cfg.fold.Valid()
  {
    IsRun(w, moves, cfg) && After(w, moves, cfg) == x
  }

  lemma OneMove(w: World, move: Move, x: World, cfg: Config)
    requires cfg.fold.Valid() && Enabled(w, move) && Next(w, move, cfg) == x
    ensures Leads(w, [move], x, cfg)
  {
    assert [move][1..] == [];
    assert IsRun(x, [], cfg) && After(x, [], cfg) == x;
  }

  lemma Joined(w: World, a: seq<Move>, x: World, b: seq<Move>, y: World, cfg: Config)
    requires cfg.fold.Valid() && Leads(w, a, x, cfg) && Leads(x, b, y, cfg)
    ensures Leads(w, a + b, y, cfg)
  {
    RunsJoin(w, a, b, cfg);
  }

  // --------------------------------------------------------------- a handler, start to end

  const NO_ACTION := RecoveryIntent(Noop, None, [], None, ServiceImplicit, 0, None)
  const HANDLER: nat := 1

  /** The decision a handler makes without evidence. */
  function Plainly(obs: seq<Observation>, now: int, orderId: string, cfg: Config): Decision
    requires cfg.fold.Valid()
  {
    Decision(obs, now, [], FoldOf(obs, now, orderId, [], cfg.fold))
  }

  lemma MessageStep(w: World, orderId: string, cfg: Config)
    requires cfg.fold.Valid() && orderId != "" && HANDLER !in w.tasks
    ensures Leads(w, [Message(HANDLER, orderId)], w.(tasks := w.tasks[HANDLER := Waiting(orderId)]), cfg)
  {
    OneMove(w, Message(HANDLER, orderId), w.(tasks := w.tasks[HANDLER := Waiting(orderId)]), cfg);
  }

  lemma AcquireStep(w: World, t: nat, cfg: Config)
    requires cfg.fold.Valid() && t in w.tasks && !Holds(w.tasks[t]) && w.tasks[t].orderId !in w.memory.locks
    ensures var task := w.tasks[t];
            Leads(w, [Acquire(t)],
                  World(w.memory.(locks := w.memory.locks[task.orderId := t]),
                        w.tasks[t := if task.Waiting? then Holding(task.orderId)
                                     else Deciding(task.orderId, task.obs, task.now)]), cfg)
  {
    OneMove(w, Acquire(t), Next(w, Acquire(t), cfg), cfg);
  }

  lemma LoadStep(w: World, t: nat, orderId: string, now: int, cfg: Config)
    requires cfg.fold.Valid() && t in w.tasks && w.tasks[t] == Holding(orderId)
    requires var obs := RowsOf(w.memory.rows, orderId); obs != [] && !Ignored(obs)
    ensures Leads(w, [Load(t, now)],
                  w.(tasks := w.tasks[t := Deciding(orderId, RowsOf(w.memory.rows, orderId), now)]), cfg)
  {
    OneMove(w, Load(t, now), Next(w, Load(t, now), cfg), cfg);
  }

  lemma ResolveStep(w: World, t: nat, orderId: string, obs: seq<Observation>, now: int, cfg: Config)
    requires cfg.fold.Valid() && t in w.tasks && w.tasks[t] == Deciding(orderId, obs, now)
    ensures Leads(w, [Resolve(t, [])],
                  w.(tasks := w.tasks[t := Resolved(orderId, obs, now, [], FoldOf(obs, now, orderId, [], cfg.fold))]),
                  cfg)
  {
    OneMove(w, Resolve(t, []), Next(w, Resolve(t, []), cfg), cfg);
  }

  lemma SetTimerStep(w: World, t: nat, cfg: Config)
    requires cfg.fold.Valid() && t in w.tasks && w.tasks[t].Resolved?
    ensures var task := w.tasks[t];
            Leads(w, [SetTimer(t)],
                  World(TimerSet(w.memory, task.orderId, task.verdict), w.tasks[t := TimedBy(task)]), cfg)
  {
    OneMove(w, SetTimer(t), Next(w, SetTimer(t), cfg), cfg);
  }

  /** Nobody has acted on money, so every key that has acted is one of doing nothing. */
  ghost predicate OnlyNoops(ledger: Ledger) {
    forall k :: k in ledger.executed ==> k.action == Noop
  }

  lemma NoActionIsDone(m: Memory, task: Task, cfg: Config)
    requires cfg.fold.Valid() && task.Timed?
    ensures var a := Attempted(m, task, NO_ACTION, UNKNOWN_CUSTOMER, cfg);
            a.Done? && (OnlyNoops(m.ledger) ==> OnlyNoops(a.ledger))
  {
    var keyed := NO_ACTION.(evidenceVersion := Some(EvidenceVersion(task.obs)));
    var d := DecisionOf(keyed, task.obs, task.now, UNKNOWN_CUSTOMER, m.ledger.executed.Keys, cfg.fold, task.evidence);
    NoopBegins(m.ledger, d, keyed, task.orderId, TargetPayment(StateOf(task.obs), task.verdict.verdict), cfg.exec);
  }

  lemma NoopBegins(x: Ledger, d: GateDecision, intent: RecoveryIntent, orderId: string, paymentId: string,
                   cfg: ExecConfig)
    requires intent.action == Noop && d.idemKey.action == Noop
    ensures var a := Begin(x, d, intent, orderId, paymentId, cfg);
            a.Done? && (OnlyNoops(x) ==> OnlyNoops(a.ledger))
  {
  }

  lemma ProposeStep(w: World, t: nat, cfg: Config) returns (ledger: Ledger)
    requires cfg.fold.Valid() && t in w.tasks && w.tasks[t].Timed?
    ensures var task := w.tasks[t];
            Leads(w, [Propose(t, NO_ACTION, UNKNOWN_CUSTOMER)],
                  World(Decided(w.memory, ledger, task.orderId, Made(task)), w.tasks[t := WrittenBy(task)]), cfg)
    ensures OnlyNoops(w.memory.ledger) ==> OnlyNoops(ledger)
  {
    NoActionIsDone(w.memory, w.tasks[t], cfg);
    ledger := Attempted(w.memory, w.tasks[t], NO_ACTION, UNKNOWN_CUSTOMER, cfg).ledger;
    OneMove(w, Propose(t, NO_ACTION, UNKNOWN_CUSTOMER), Next(w, Propose(t, NO_ACTION, UNKNOWN_CUSTOMER), cfg), cfg);
  }

  /** The link a task proposes. */
  const LINK := LinkOverSms(ServiceExplicit)

  /** The call that link makes. */
  function CallOf(task: Task): Outcome
    requires task.Timed?
  {
    Outcome(task.orderId, TargetPayment(StateOf(task.obs), task.verdict.verdict), SendRecoveryLink, FailedCall,
            DecisionKey(task.obs, SendRecoveryLink))
  }

  lemma LinkIsCalled(m: Memory, task: Task, cfg: Config)
    requires cfg.fold.Valid() && !cfg.exec.dryRun && task.Timed?
    requires DecisionKey(task.obs, SendRecoveryLink) !in m.ledger.executed
    requires LinkDue(StateOf(task.obs), FoldOf(task.obs, task.now, "", task.evidence, cfg.fold), task.obs, task.now,
                 cfg.fold, task.evidence)
    ensures Attempted(m, task, LINK, UNKNOWN_CUSTOMER, cfg) == Awaiting(CallOf(task))
  {
    var keyed := LINK.(evidenceVersion := Some(EvidenceVersion(task.obs)));
    LinkOverSmsAllowed(keyed, ServiceExplicit, task.obs, task.now, m.ledger.executed.Keys, cfg.fold, task.evidence);
  }

  lemma LinkStep(w: World, t: nat, cfg: Config)
    requires cfg.fold.Valid() && !cfg.exec.dryRun && t in w.tasks && w.tasks[t].Timed?
    requires DecisionKey(w.tasks[t].obs, SendRecoveryLink) !in w.memory.ledger.executed
    requires var task := w.tasks[t];
             LinkDue(StateOf(task.obs), FoldOf(task.obs, task.now, "", task.evidence, cfg.fold), task.obs, task.now,
                 cfg.fold, task.evidence)
    ensures Leads(w, [Propose(t, LINK, UNKNOWN_CUSTOMER)],
                  w.(tasks := w.tasks[t := CallingFor(w.tasks[t], CallOf(w.tasks[t]))]), cfg)
  {
    LinkIsCalled(w.memory, w.tasks[t], cfg);
    OneMove(w, Propose(t, LINK, UNKNOWN_CUSTOMER), Next(w, Propose(t, LINK, UNKNOWN_CUSTOMER), cfg), cfg);
  }

  lemma ReplyStep(w: World, t: nat, ok: bool, cfg: Config)
    requires cfg.fold.Valid() && t in w.tasks && w.tasks[t].Calling?
    ensures var task := w.tasks[t];
            Leads(w, [Reply(t, ok)],
                  World(Decided(w.memory, Resume(w.memory.ledger, task.base, ok), task.orderId, Made(task)),
                        w.tasks[t := WrittenBy(task)]), cfg)
  {
    OneMove(w, Reply(t, ok), Next(w, Reply(t, ok), cfg), cfg);
  }

  lemma ReleaseStep(w: World, t: nat, cfg: Config)
    requires cfg.fold.Valid() && t in w.tasks && w.tasks[t].Writing?
    ensures Leads(w, [Release(t)], World(Freed(w.memory, t, w.tasks[t].orderId), Dropped(w.tasks, t)), cfg)
  {
    OneMove(w, Release(t), Next(w, Release(t), cfg), cfg);
  }

  lemma TickLoadStep(w: World, obs: seq<Observation>, cfg: Config)
    requires cfg.fold.Valid() && TICK !in w.tasks && w.memory.batch != []
    requires obs == RowsOf(w.memory.rows, w.memory.batch[0]) && obs != []
    ensures Leads(w, [TickLoad], w.(tasks := w.tasks[TICK := Preloaded(w.memory.batch[0], obs, w.memory.tickNow)]), cfg)
  {
    OneMove(w, TickLoad, Next(w, TickLoad, cfg), cfg);
  }

  /** Where a handler is ready to decide. */
  function Loaded(w: World, orderId: string, obs: seq<Observation>, now: int): World {
    World(w.memory.(locks := w.memory.locks[orderId := HANDLER]), w.tasks[HANDLER := Deciding(orderId, obs, now)])
  }

  lemma HandlerLoads(w: World, orderId: string, now: int, cfg: Config) returns (moves: seq<Move>)
    requires cfg.fold.Valid() && orderId != "" && HANDLER !in w.tasks && orderId !in w.memory.locks
    requires var obs := RowsOf(w.memory.rows, orderId); obs != [] && !Ignored(obs)
    ensures Leads(w, moves, Loaded(w, orderId, RowsOf(w.memory.rows, orderId), now), cfg)
  {
    var m := w.memory;
    var x := w.(tasks := w.tasks[HANDLER := Waiting(orderId)]);
    var y := World(m.(locks := m.locks[orderId := HANDLER]), x.tasks[HANDLER := Holding(orderId)]);
    var z := y.(tasks := y.tasks[HANDLER := Deciding(orderId, RowsOf(m.rows, orderId), now)]);
    MessageStep(w, orderId, cfg);
    AcquireStep(x, HANDLER, cfg);
    LoadStep(y, HANDLER, orderId, now, cfg);
    Joined(w, [Message(HANDLER, orderId)], x, [Acquire(HANDLER)], y, cfg);
    Joined(w, [Message(HANDLER, orderId)] + [Acquire(HANDLER)], y, [Load(HANDLER, now)], z, cfg);
    moves := [Message(HANDLER, orderId)] + [Acquire(HANDLER)] + [Load(HANDLER, now)];
    assert z.tasks == w.tasks[HANDLER := Deciding(orderId, RowsOf(m.rows, orderId), now)];
  }

  /** The memory once a decision has been recorded. */
  function AfterDecision(m: Memory, ledger: Ledger, orderId: string, d: Decision): Memory {
    Decided(TimerSet(m, orderId, d.verdict), ledger, orderId, d)
  }

  /** What a task has decided on its rows, its timer set. */
  function Ready(x: World, t: nat, orderId: string, d: Decision): World {
    World(TimerSet(x.memory, orderId, d.verdict),
          x.tasks[t := Timed(orderId, d.obs, d.now, d.evidence, d.verdict)])
  }

  lemma GetsReady(x: World, t: nat, orderId: string, obs: seq<Observation>, now: int, d: Decision, cfg: Config)
    requires cfg.fold.Valid() && t in x.tasks && x.tasks[t] == Deciding(orderId, obs, now)
    requires d == Plainly(obs, now, orderId, cfg)
    ensures Leads(x, [Resolve(t, [])] + [SetTimer(t)], Ready(x, t, orderId, d), cfg)
  {
    var y := x.(tasks := x.tasks[t := Resolved(orderId, obs, now, [], d.verdict)]);
    ResolveStep(x, t, orderId, obs, now, cfg);
    SetTimerStep(y, t, cfg);
    assert y.tasks[t := Timed(orderId, obs, now, [], d.verdict)] == Ready(x, t, orderId, d).tasks;
    Joined(x, [Resolve(t, [])], y, [SetTimer(t)], Ready(x, t, orderId, d), cfg);
  }

  /** From there to the recorded decision, the lock still held: nothing is done. */
  lemma RecordsNothing(x: World, t: nat, orderId: string, obs: seq<Observation>, now: int, d: Decision, cfg: Config)
    returns (moves: seq<Move>, ledger: Ledger)
    requires cfg.fold.Valid() && t in x.tasks && x.tasks[t] == Deciding(orderId, obs, now)
    requires d == Plainly(obs, now, orderId, cfg)
    ensures Leads(x, moves,
                  World(AfterDecision(x.memory, ledger, orderId, d),
                        x.tasks[t := Writing(orderId, obs, now, [], d.verdict)]), cfg)
    ensures OnlyNoops(x.memory.ledger) ==> OnlyNoops(ledger)
  {
    var z, written := Ready(x, t, orderId, d), Writing(orderId, obs, now, [], d.verdict);
    GetsReady(x, t, orderId, obs, now, d, cfg);
    ledger := ProposeStep(z, t, cfg);
    assert z.tasks[t := written] == x.tasks[t := written];
    var last := World(AfterDecision(x.memory, ledger, orderId, d), x.tasks[t := written]);
    moves := [Resolve(t, [])] + [SetTimer(t)];
    Joined(x, moves, z, [Propose(t, NO_ACTION, UNKNOWN_CUSTOMER)], last, cfg);
    moves := moves + [Propose(t, NO_ACTION, UNKNOWN_CUSTOMER)];
  }

  /** Or the link is sent, and answered. */
  lemma HandlerSendsLink(x: World, orderId: string, obs: seq<Observation>, now: int, d: Decision, ok: bool, cfg: Config)
    returns (moves: seq<Move>, base: Outcome)
    requires cfg.fold.Valid() && !cfg.exec.dryRun
    requires HANDLER in x.tasks && x.tasks[HANDLER] == Deciding(orderId, obs, now)
             && d == Plainly(obs, now, orderId, cfg)
    requires DecisionKey(obs, SendRecoveryLink) !in x.memory.ledger.executed
    requires LinkDue(StateOf(obs), FoldOf(obs, now, "", [], cfg.fold), obs, now, cfg.fold, [])
    ensures base == CallOf(Timed(orderId, obs, now, [], d.verdict))
    ensures Leads(x, moves,
                  World(AfterDecision(x.memory, Resume(x.memory.ledger, base, ok), orderId, d),
                        x.tasks[HANDLER := Writing(orderId, obs, now, [], d.verdict)]), cfg)
  {
    var z, written := Ready(x, HANDLER, orderId, d), Writing(orderId, obs, now, [], d.verdict);
    base := CallOf(z.tasks[HANDLER]);
    GetsReady(x, HANDLER, orderId, obs, now, d, cfg);
    LinkStep(z, HANDLER, cfg);
    var y := z.(tasks := z.tasks[HANDLER := CallingFor(z.tasks[HANDLER], base)]);
    ReplyStep(y, HANDLER, ok, cfg);
    assert y.tasks[HANDLER := written] == x.tasks[HANDLER := written];
    var last := World(AfterDecision(x.memory, Resume(x.memory.ledger, base, ok), orderId, d),
                      x.tasks[HANDLER := written]);
    moves := [Resolve(HANDLER, [])] + [SetTimer(HANDLER)];
    Joined(x, moves, z, [Propose(HANDLER, LINK, UNKNOWN_CUSTOMER)], y, cfg);
    Joined(x, moves + [Propose(HANDLER, LINK, UNKNOWN_CUSTOMER)], y, [Reply(HANDLER, ok)], last, cfg);
    moves := moves + [Propose(HANDLER, LINK, UNKNOWN_CUSTOMER)] + [Reply(HANDLER, ok)];
  }

  lemma LetGo(m: Memory, tasks: map<nat, Task>, orderId: string, t: nat, task: Task)
    requires orderId !in m.locks && t !in tasks && t != TICK
    ensures Freed(m.(locks := m.locks[orderId := t]), t, orderId) == m
    ensures Dropped(tasks[t := task], t) == tasks
  {
    assert Dropped(m.locks[orderId := t], orderId) == m.locks;
    assert Dropped(tasks[t := task], t) == tasks;
  }

  /** Where it has recorded its decision and still holds the lock. */
  function Recorded(w: World, ledger: Ledger, orderId: string, d: Decision): World {
    var m := AfterDecision(w.memory, ledger, orderId, d);
    World(m.(locks := m.locks[orderId := HANDLER]),
          w.tasks[HANDLER := Writing(orderId, d.obs, d.now, d.evidence, d.verdict)])
  }

  lemma HandlerComesToRecord(w: World, orderId: string, now: int, d: Decision, cfg: Config)
    returns (moves: seq<Move>, ledger: Ledger)
    requires cfg.fold.Valid() && orderId != "" && HANDLER !in w.tasks && orderId !in w.memory.locks
    requires var obs := RowsOf(w.memory.rows, orderId); obs != [] && !Ignored(obs)
    requires d == Plainly(RowsOf(w.memory.rows, orderId), now, orderId, cfg)
    ensures Leads(w, moves, Recorded(w, ledger, orderId, d), cfg)
    ensures OnlyNoops(w.memory.ledger) ==> OnlyNoops(ledger)
  {
    var loads := HandlerLoads(w, orderId, now, cfg);
    var x := Loaded(w, orderId, d.obs, now);
    var records;
    records, ledger := RecordsNothing(x, HANDLER, orderId, d.obs, now, d, cfg);
    RecordedFromLoaded(w, ledger, orderId, d);
    Joined(w, loads, x, records, Recorded(w, ledger, orderId, d), cfg);
    moves := loads + records;
  }

  lemma RecordedFromLoaded(w: World, ledger: Ledger, orderId: string, d: Decision)
    ensures var x := Loaded(w, orderId, d.obs, d.now);
            World(AfterDecision(x.memory, ledger, orderId, d),
                  x.tasks[HANDLER := Writing(orderId, d.obs, d.now, d.evidence, d.verdict)])
            == Recorded(w, ledger, orderId, d)
  {
    var written := Writing(orderId, d.obs, d.now, d.evidence, d.verdict);
    assert Loaded(w, orderId, d.obs, d.now).tasks[HANDLER := written] == w.tasks[HANDLER := written];
  }

  /** A handler that nothing interrupts: the order's last decision is the fold of all its rows. */
  lemma HandlerDecides(w: World, orderId: string, obs: seq<Observation>, now: int, d: Decision, cfg: Config)
    returns (moves: seq<Move>, ledger: Ledger)
    requires cfg.fold.Valid() && orderId != "" && HANDLER !in w.tasks && orderId !in w.memory.locks
    requires obs == RowsOf(w.memory.rows, orderId) && obs != [] && !Ignored(obs)
    requires d == Plainly(obs, now, orderId, cfg)
    ensures Leads(w, moves, World(AfterDecision(w.memory, ledger, orderId, d), w.tasks), cfg)
    ensures OnlyNoops(w.memory.ledger) ==> OnlyNoops(ledger)
  {
    moves, ledger := HandlerComesToRecord(w, orderId, now, d, cfg);
    moves := HandlerFinishes(w, moves, ledger, orderId, d, cfg);
  }

  /** The same of a handler that sends a link. */
  lemma HandlerLinks(w: World, orderId: string, obs: seq<Observation>, now: int, d: Decision, ok: bool, cfg: Config)
    returns (moves: seq<Move>, base: Outcome)
    requires cfg.fold.Valid() && !cfg.exec.dryRun
    requires orderId != "" && HANDLER !in w.tasks && orderId !in w.memory.locks
    requires obs == RowsOf(w.memory.rows, orderId) && obs != [] && !Ignored(obs) && d == Plainly(obs, now, orderId, cfg)
    requires DecisionKey(obs, SendRecoveryLink) !in w.memory.ledger.executed
    requires LinkDue(StateOf(obs), FoldOf(obs, now, "", [], cfg.fold), obs, now, cfg.fold, [])
    ensures base == CallOf(Timed(orderId, obs, now, [], d.verdict))
    ensures Leads(w, moves, World(AfterDecision(w.memory, Resume(w.memory.ledger, base, ok), orderId, d), w.tasks), cfg)
  {
    var loads := HandlerLoads(w, orderId, now, cfg);
    var x := Loaded(w, orderId, obs, now);
    var sends;
    sends, base := HandlerSendsLink(x, orderId, obs, now, d, ok, cfg);
    var ledger := Resume(w.memory.ledger, base, ok);
    RecordedFromLoaded(w, ledger, orderId, d);
    Joined(w, loads, x, sends, Recorded(w, ledger, orderId, d), cfg);
    moves := HandlerFinishes(w, loads + sends, ledger, orderId, d, cfg);
  }

  lemma HandlerFinishes(w: World, records: seq<Move>, ledger: Ledger, orderId: string, d: Decision, cfg: Config)
    returns (moves: seq<Move>)
    requires cfg.fold.Valid() && HANDLER !in w.tasks && orderId !in w.memory.locks
    requires Leads(w, records, Recorded(w, ledger, orderId, d), cfg)
    ensures Leads(w, moves, World(AfterDecision(w.memory, ledger, orderId, d), w.tasks), cfg)
  {
    var m, y := AfterDecision(w.memory, ledger, orderId, d), Recorded(w, ledger, orderId, d);
    HandlerLetsGo(w, m, y, orderId, y.tasks[HANDLER], cfg);
    Joined(w, records, y, [Release(HANDLER)], World(m, w.tasks), cfg);
    moves := records + [Release(HANDLER)];
  }

  lemma HandlerLetsGo(w: World, m: Memory, y: World, orderId: string, written: Task, cfg: Config)
    requires cfg.fold.Valid() && orderId !in m.locks && HANDLER !in w.tasks && written.Writing?
             && written.orderId == orderId
    requires y == World(m.(locks := m.locks[orderId := HANDLER]), w.tasks[HANDLER := written])
    ensures Leads(y, [Release(HANDLER)], World(m, w.tasks), cfg)
  {
    ReleaseStep(y, HANDLER, cfg);
    LetGo(m, w.tasks, orderId, HANDLER, written);
  }

  // -------------------------------------------------------------------------- deliveries

  lemma Delivered(w: World, o: Observation)
    requires w.memory.links == {} && forall r :: r in w.memory.rows ==> r.eventId != o.eventId
    ensures Enabled(w, Deliver(o)) && Appended(w.memory.rows, o) == w.memory.rows + [o]
  {
  }

  lemma OfOrder(rows: seq<Observation>)
    requires forall r :: r in rows ==> r.orderId == "order"
    ensures RowsOf(rows, "order") == rows
  {
    if rows != [] {
      var front := rows[..|rows| - 1];
      assert rows == front + [rows[|rows| - 1]];
      OfOrder(front);
    }
  }

  lemma DeliverStep(w: World, o: Observation, cfg: Config)
    requires cfg.fold.Valid() && w.memory.links == {} && forall r :: r in w.memory.rows ==> r.eventId != o.eventId
    ensures Leads(w, [Deliver(o)], w.(memory := w.memory.(rows := w.memory.rows + [o])), cfg)
  {
    Delivered(w, o);
    OneMove(w, Deliver(o), Next(w, Deliver(o), cfg), cfg);
  }

  lemma {:induction false} LatestMember(obs: seq<Observation>)
    requires obs != []
    ensures LatestEvent(obs) in obs
  {
    if |obs| > 1 {
      LatestMember(obs[..|obs| - 1]);
    }
  }
}
