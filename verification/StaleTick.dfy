/** The run on which the tick decides on stale rows: it loads an order before it takes the lock, and a
    handler decides on a capture in between. */
module StaleTick {
  import opened Common
  import opened Banking
  import opened Events
  import opened Verdicts
  import opened Fold
  import opened Executor
  import opened Scheduler
  import opened SmallStreams
  import opened SmallLinks
  import opened SmallRuns
  import opened Worker
  import opened WorkerTheorems
  import opened WorkerDecisions

  // ------------------------------------------------------------------------- the events

  const LOST := PlainEvent("e1", PaymentFailed, "pay_A", 1_000, Network, PaymentResponse, OtherReason("timeout"))
  const REFUND := PlainEvent("e2", RefundProcessed, "pay_A", 2_000, UnknownSource, OtherStep, OtherReason(""))
  const CAPTURE := PlainEvent("e3", PaymentCaptured, "pay_B", 3_000, UnknownSource, OtherStep, OtherReason(""))

  lemma LostRuling(p: Payment, now: int, cfg: FoldConfig)
    requires cfg.Valid() && p == Only(LOST) && now == 1_000
    ensures var deadline := TatDeadline(now, cfg.tatBankingDays, cfg.holidays);
            && now <= deadline
            && JudgeFailure(p, now, [], cfg) == Ruling(PendingTat, 7_500, [R11_PendingTat], Some(deadline + 60))
  {
    DeadlineNeverEarly(now, cfg.tatBankingDays, cfg.holidays);
  }

  /** The lost response waits. */
  lemma LostWaits(now: int, cfg: FoldConfig)
    requires cfg.Valid() && now == 1_000
    ensures var v := FoldOf([LOST], now, "order", [], cfg);
            v.verdict == PendingTat && v.recheckAt == Some(TatDeadline(now, cfg.tatBankingDays, cfg.holidays) + 60)
    ensures TatDeadline(now, cfg.tatBankingDays, cfg.holidays) >= 1_000
  {
    OneEventState(LOST);
    LostRuling(Only(LOST), now, cfg);
    OneFailureJudged(StateOf([LOST]), Only(LOST), now, cfg);
    FoldedPlainly([LOST], now, "order", cfg);
  }

  lemma RefundedState()
    ensures StateOf([LOST, REFUND]).payments == [Applied(Only(LOST), REFUND)]
    ensures !StateOf([LOST, REFUND]).settledInReport && !StateOf([LOST, REFUND]).orderPaidSeen
    ensures StateOf([LOST, REFUND]).amountDue == 49_900 && StateOf([LOST, REFUND]).amountPaidReported == 0
  {
    TotalsOfOne(Applied(Only(LOST), REFUND));
    TwoEventOrder(LOST, REFUND);
    OneEventReduced(LOST);
    assert [LOST, REFUND][..1] == [LOST];
    assert IndexOf([Only(LOST)], "pay_A") == 0;
    assert [Only(LOST)][0 := Applied(Only(LOST), REFUND)] == [Applied(Only(LOST), REFUND)];
  }

  /** Once it is refunded the failure is a fact. */
  lemma RefundConfirms(now: int, cfg: FoldConfig)
    requires cfg.Valid()
    ensures FoldOf([LOST, REFUND], now, "order", [], cfg).verdict == ConfirmedFailed
  {
    RefundedState();
    RefundJudged(StateOf([LOST, REFUND]), Applied(Only(LOST), REFUND), now, cfg);
    FoldedPlainly([LOST, REFUND], now, "order", cfg);
  }

  lemma RefundJudged(st: Order, p: Payment, now: int, cfg: FoldConfig)
    requires cfg.Valid() && st.payments == [p] && !st.settledInReport && !st.orderPaidSeen
    requires p.status == Some(Refunded) && p.refundProcessed
    ensures Judge(st, now, [], cfg) == Ruling(ConfirmedFailed, 9_500, [R6_RefundProcessed], None)
  {
    StatusOfOne(p, Captured);
    StatusOfOne(p, Authorized);
    assert p in st.payments;
  }

  /** And once the second attempt is captured the order is settled. */
  lemma CaptureSettlesIt(now: int, cfg: FoldConfig)
    requires cfg.Valid()
    ensures FoldOf([LOST, REFUND, CAPTURE], now, "order", [], cfg).verdict == OrderSettled
  {
    var obs := [LOST, REFUND, CAPTURE];
    assert obs[1..] == [REFUND, CAPTURE];
    TwoEventOrder(REFUND, CAPTURE);
    assert CanonicalOrder(obs) == obs;
    assert FoldTheorems.CapturesAt(obs, "pay_B", 2);
    FoldTheorems.CaptureSettles(obs, "pay_B", 49_900, now, "order", [], cfg);
  }

  // ---------------------------------------------------------------------------- the run

  /** Between the steps nobody holds a lock, no link is out and nobody has acted on money. */
  ghost predicate AtRest(m: Memory, rows: seq<Observation>) {
    m.rows == rows && m.locks == map[] && m.links == {} && OnlyNoops(m.ledger)
  }

  /** A lost response is stored and a handler decides to wait. */
  lemma FirstWait(cfg: Config) returns (moves: seq<Move>, w: World)
    requires cfg.fold.Valid()
    ensures Leads(INITIAL, moves, w, cfg) && AtRest(w.memory, [LOST]) && w.tasks == map[] && w.memory.batch == []
    ensures exists due :: w.memory.timers == map["order" := due]
  {
    DeliverStep(INITIAL, LOST, cfg);
    var x := INITIAL.(memory := INITIAL.memory.(rows := [] + [LOST]));
    OfOrder([LOST]);
    LostWaits(1_000, cfg.fold);
    var d := Plainly([LOST], 1_000, "order", cfg);
    var decides, ledger := HandlerDecides(x, "order", [LOST], 1_000, d, cfg);
    w := World(AfterDecision(x.memory, ledger, "order", d), x.tasks);
    Joined(INITIAL, [Deliver(LOST)], x, decides, w, cfg);
    moves := [Deliver(LOST)] + decides;
    assert w.memory.timers == map["order" := d.verdict.recheckAt.value];
  }

  lemma TickStep(w: World, now: int, cfg: Config)
    requires cfg.fold.Valid() && w.memory.timers == map["order" := now] && TICK !in w.tasks && w.memory.batch == []
    ensures Leads(w, [Tick(now, ["order"])],
                  w.(memory := w.memory.(batch := ["order"], timers := map[], tickNow := now)), cfg)
  {
    assert IsDueList(w.memory.timers, now, ["order"]);
    assert Without(w.memory.timers, ["order"]) == map[];
    OneMove(w, Tick(now, ["order"]), Next(w, Tick(now, ["order"]), cfg), cfg);
  }

  /** The refund is stored, the recheck comes and the tick loads the order. */
  lemma TickLoads(v: World, now: int, cfg: Config) returns (moves: seq<Move>, w: World)
    requires cfg.fold.Valid() && AtRest(v.memory, [LOST]) && v.tasks == map[] && v.memory.batch == []
    requires v.memory.timers == map["order" := now]
    ensures Leads(v, moves, w, cfg) && AtRest(w.memory, [LOST, REFUND])
    ensures w.tasks == map[TICK := Preloaded("order", [LOST, REFUND], now)]
  {
    DeliverStep(v, REFUND, cfg);
    var x := v.(memory := v.memory.(rows := [LOST, REFUND]));
    TickStep(x, now, cfg);
    var y := x.(memory := x.memory.(batch := ["order"], timers := map[], tickNow := now));
    OfOrder([LOST, REFUND]);
    TickLoadStep(y, [LOST, REFUND], cfg);
    w := y.(tasks := y.tasks[TICK := Preloaded("order", [LOST, REFUND], now)]);
    assert [LOST] + [REFUND] == [LOST, REFUND];
    Joined(v, [Deliver(REFUND)], x, [Tick(now, ["order"])], y, cfg);
    Joined(v, [Deliver(REFUND)] + [Tick(now, ["order"])], y, [TickLoad], w, cfg);
    moves := [Deliver(REFUND)] + [Tick(now, ["order"])] + [TickLoad];
  }

  lemma CaptureDecided(x: World, now: int, cfg: Config) returns (moves: seq<Move>, w: World)
    requires cfg.fold.Valid() && AtRest(x.memory, [LOST, REFUND, CAPTURE]) && HANDLER !in x.tasks
    ensures Leads(x, moves, w, cfg) && w.tasks == x.tasks && AtRest(w.memory, [LOST, REFUND, CAPTURE])
    ensures "order" in w.memory.last && w.memory.last["order"] == Plainly([LOST, REFUND, CAPTURE], now, "order", cfg)
  {
    var rows := [LOST, REFUND, CAPTURE];
    OfOrder(rows);
    LatestMember(rows);
    var d := Plainly(rows, now, "order", cfg);
    var ledger;
    moves, ledger := HandlerDecides(x, "order", rows, now, d, cfg);
    w := World(AfterDecision(x.memory, ledger, "order", d), x.tasks);
  }

  /** The capture is stored and a handler decides on it. */
  lemma HandlerSeesCapture(v: World, now: int, cfg: Config) returns (moves: seq<Move>, w: World)
    requires cfg.fold.Valid() && AtRest(v.memory, [LOST, REFUND]) && HANDLER !in v.tasks
    ensures Leads(v, moves, w, cfg) && w.tasks == v.tasks && AtRest(w.memory, [LOST, REFUND, CAPTURE])
    ensures "order" in w.memory.last && w.memory.last["order"] == Plainly([LOST, REFUND, CAPTURE], now, "order", cfg)
  {
    DeliverStep(v, CAPTURE, cfg);
    assert [LOST, REFUND] + [CAPTURE] == [LOST, REFUND, CAPTURE];
    var x := v.(memory := v.memory.(rows := [LOST, REFUND, CAPTURE]));
    var decides;
    decides, w := CaptureDecided(x, now, cfg);
    Joined(v, [Deliver(CAPTURE)], x, decides, w, cfg);
    moves := [Deliver(CAPTURE)] + decides;
  }

  /** Then the tick takes the lock and decides on what it had loaded. */
  lemma TickResolves(v: World, obs: seq<Observation>, now: int, cfg: Config) returns (moves: seq<Move>, w: World)
    requires cfg.fold.Valid() && v.memory.locks == map[] && v.tasks == map[TICK := Preloaded("order", obs, now)]
    ensures Leads(v, moves, w, cfg) && w.memory.last == v.memory.last
    ensures w.memory.rows == v.memory.rows && w.memory.ledger == v.memory.ledger
    ensures w.tasks == map[TICK := Resolved("order", obs, now, [], FoldOf(obs, now, "order", [], cfg.fold))]
  {
    AcquireStep(v, TICK, cfg);
    var x := World(v.memory.(locks := v.memory.locks["order" := TICK]), v.tasks[TICK := Deciding("order", obs, now)]);
    ResolveStep(x, TICK, "order", obs, now, cfg);
    w := x.(tasks := x.tasks[TICK := Resolved("order", obs, now, [], FoldOf(obs, now, "order", [], cfg.fold))]);
    Joined(v, [Acquire(TICK)], x, [Resolve(TICK, [])], w, cfg);
    moves := [Acquire(TICK)] + [Resolve(TICK, [])];
  }

  /** The tick's timer is set, its link passes the gate and is sent. */
  lemma TickSendsLink(v: World, obs: seq<Observation>, now: int, verdict: VerdictResult, cfg: Config)
    returns (moves: seq<Move>, base: Outcome, w: World)
    requires cfg.fold.Valid() && !cfg.exec.dryRun && v.tasks == map[TICK := Resolved("order", obs, now, [], verdict)]
    requires DecisionKey(obs, SendRecoveryLink) !in v.memory.ledger.executed
    requires LinkDue(StateOf(obs), FoldOf(obs, now, "", [], cfg.fold), obs, now, cfg.fold, [])
    ensures base.action == SendRecoveryLink && base.orderId == "order"
            && base.idemKey == DecisionKey(obs, SendRecoveryLink)
    ensures Leads(v, moves, w, cfg) && w.memory.rows == v.memory.rows
    ensures w.memory.ledger.outcomes == v.memory.ledger.outcomes + [base.(status := Executed)]
  {
    var task := Timed("order", obs, now, [], verdict);
    base := CallOf(task);
    SetTimerStep(v, TICK, cfg);
    var x := World(TimerSet(v.memory, "order", verdict), v.tasks[TICK := task]);
    LinkStep(x, TICK, cfg);
    var y := x.(tasks := x.tasks[TICK := CallingFor(task, base)]);
    ReplyStep(y, TICK, true, cfg);
    w := World(Decided(y.memory, Resume(y.memory.ledger, base, true), "order", Made(task)),
               y.tasks[TICK := WrittenBy(task)]);
    Joined(v, [SetTimer(TICK)], x, [Propose(TICK, LINK, UNKNOWN_CUSTOMER)], y, cfg);
    Joined(v, [SetTimer(TICK)] + [Propose(TICK, LINK, UNKNOWN_CUSTOMER)], y, [Reply(TICK, true)], w, cfg);
    moves := [SetTimer(TICK)] + [Propose(TICK, LINK, UNKNOWN_CUSTOMER)] + [Reply(TICK, true)];
  }

  /** The refunded failure alone earns a link. */
  lemma RefundIsDue(now: int, cfg: FoldConfig)
    requires cfg.Valid()
    ensures var obs := [LOST, REFUND]; LinkDue(StateOf(obs), FoldOf(obs, now, "", [], cfg), obs, now, cfg, [])
  {
    RefundedState();
    RefundJudged(StateOf([LOST, REFUND]), Applied(Only(LOST), REFUND), now, cfg);
    FoldedPlainly([LOST, REFUND], now, "", cfg);
    RefundedIsDue(StateOf([LOST, REFUND]), FoldOf([LOST, REFUND], now, "", [], cfg), now, cfg);
  }

  lemma RefundedIsDue(st: Order, truth: VerdictResult, now: int, cfg: FoldConfig)
    requires cfg.Valid() && st.payments == [Applied(Only(LOST), REFUND)]
    requires st.amountDue == 49_900 && st.amountPaidReported == 0
    requires truth.verdict == ConfirmedFailed && truth.confidence == 9_500
    ensures LinkDue(st, truth, [LOST, REFUND], now, cfg, [])
  {
    StatusOfOne(Applied(Only(LOST), REFUND), Captured);
  }

  /** The tick holds the lock and has decided CONFIRMED_FAILED on rows older than those of the order's last
      decision, which was ORDER_SETTLED. */
  ghost predicate DecidedOnStaleRows(w: World) {
    && TICK in w.tasks && w.tasks[TICK].Resolved? && w.tasks[TICK].verdict.verdict == ConfirmedFailed
    && w.tasks[TICK].orderId in w.memory.last
    && w.memory.last[w.tasks[TICK].orderId].verdict.verdict == OrderSettled
    && !SeesLast(w, TICK)
  }

  lemma StaleRun(cfg: Config) returns (moves: seq<Move>, now: int, w: World)
    requires cfg.fold.Valid()
    ensures Leads(INITIAL, moves, w, cfg) && DecidedOnStaleRows(w)
    ensures w.memory.rows == [LOST, REFUND, CAPTURE] && OnlyNoops(w.memory.ledger)
    ensures w.tasks == map[TICK := Resolved("order", [LOST, REFUND], now, [],
                                            FoldOf([LOST, REFUND], now, "order", [], cfg.fold))]
  {
    var first, w1 := FirstWait(cfg);
    now :| w1.memory.timers == map["order" := now];
    var loads, w2 := TickLoads(w1, now, cfg);
    var sees, w3 := HandlerSeesCapture(w2, now, cfg);
    var late, w4 := TickResolves(w3, [LOST, REFUND], now, cfg);
    Joined(INITIAL, first, w1, loads, w2, cfg);
    Joined(INITIAL, first + loads, w2, sees, w3, cfg);
    Joined(INITIAL, first + loads + sees, w3, late, w4, cfg);
    moves, w := first + loads + sees + late, w4;
    RefundConfirms(now, cfg.fold);
    CaptureSettlesIt(now, cfg.fold);
    assert CAPTURE in w4.memory.last["order"].obs && CAPTURE !in [LOST, REFUND];
  }

  /** On every configuration there is a run on which the tick decides on stale rows. */
  lemma TickCanDecideOnStaleRows(cfg: Config) returns (moves: seq<Move>)
    requires cfg.fold.Valid()
    ensures IsRun(INITIAL, moves, cfg) && DecidedOnStaleRows(Reached(moves, cfg))
  {
    var now, w;
    moves, now, w := StaleRun(cfg);
  }

  /** And outside a dry run the link it then proposes passes the gate and is sent, though a capture of the
      order has been stored and decided on. */
  lemma TickCanSendStaleLink(cfg: Config) returns (before: seq<Move>, after: seq<Move>)
    requires cfg.fold.Valid() && !cfg.exec.dryRun
    ensures IsRun(INITIAL, before, cfg) && DecidedOnStaleRows(Reached(before, cfg))
    ensures IsRun(INITIAL, before + after, cfg)
    ensures var m, outcomes := Reached(before + after, cfg).memory, Reached(before, cfg).memory.ledger.outcomes;
            && CAPTURE in m.rows && |m.ledger.outcomes| == |outcomes| + 1
            && var o := m.ledger.outcomes[|outcomes|];
               o.action == SendRecoveryLink && o.status == Executed && o.orderId == CAPTURE.orderId
  {
    var now, w;
    before, now, w := StaleRun(cfg);
    RefundIsDue(now, cfg.fold);
    var base, x;
    after, base, x := TickSendsLink(w, [LOST, REFUND], now, FoldOf([LOST, REFUND], now, "order", [], cfg.fold), cfg);
    Joined(INITIAL, before, w, after, x, cfg);
  }
}
