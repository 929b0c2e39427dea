/** The run on which one key calls outside twice: the first call fails, so the executor does not remember it. */
module RepeatedCall {
  import opened Common
  import opened Events
  import opened Verdicts
  import opened Fold
  import opened Executor
  import opened SmallStreams
  import opened SmallLinks
  import opened SmallRuns
  import opened Worker
  import opened WorkerTheorems
  import opened WorkerOutcomes

  const CANCELLED := PlainEvent("e1", PaymentFailed, "pay_A", 1_000, Customer, OtherStep, PaymentCancelled)

  lemma CancelledRuling(p: Payment, now: int, cfg: FoldConfig)
    requires cfg.Valid() && p == Only(CANCELLED)
    ensures JudgeFailure(p, now, [], cfg) == Ruling(ConfirmedFailed, 9_500, [R9_CustomerTerminal], None)
    ensures !Flippable(p, now, cfg, [])
  {
  }

  /** What the customer cancelled earns a link at any time. */
  lemma CancelledIsDue(now: int, cfg: FoldConfig)
    requires cfg.Valid()
    ensures LinkDue(StateOf([CANCELLED]), FoldOf([CANCELLED], now, "", [], cfg), [CANCELLED], now, cfg, [])
  {
    OneEventState(CANCELLED);
    OneFailureJudged(StateOf([CANCELLED]), Only(CANCELLED), now, cfg);
    CancelledRuling(Only(CANCELLED), now, cfg);
    FoldedPlainly([CANCELLED], now, "", cfg);
    StatusOfOne(Only(CANCELLED), Captured);
  }

  /** A handler decides on the event and sends the link. */
  lemma LinkOnce(w: World, now: int, ok: bool, cfg: Config) returns (moves: seq<Move>, base: Outcome, x: World)
    requires cfg.fold.Valid() && !cfg.exec.dryRun && w.memory.rows == [CANCELLED] && w.memory.locks == map[]
    requires w.tasks == map[] && DecisionKey([CANCELLED], SendRecoveryLink) !in w.memory.ledger.executed
    ensures base.action == SendRecoveryLink && base.status == FailedCall
    ensures base.idemKey == DecisionKey([CANCELLED], SendRecoveryLink)
    ensures Leads(w, moves, x, cfg) && x.memory.ledger == Resume(w.memory.ledger, base, ok)
    ensures x.memory.rows == w.memory.rows && x.memory.locks == map[] && x.tasks == map[]
  {
    var d := Plainly([CANCELLED], now, "order", cfg);
    OfOrder([CANCELLED]);
    LatestMember([CANCELLED]);
    CancelledIsDue(now, cfg.fold);
    moves, base := HandlerLinks(w, "order", [CANCELLED], now, d, ok, cfg);
    x := World(AfterDecision(w.memory, Resume(w.memory.ledger, base, ok), "order", d), w.tasks);
  }

  lemma Stored(cfg: Config) returns (w: World)
    requires cfg.fold.Valid()
    ensures Leads(INITIAL, [Deliver(CANCELLED)], w, cfg)
    ensures w == INITIAL.(memory := INITIAL.memory.(rows := [CANCELLED]))
  {
    DeliverStep(INITIAL, CANCELLED, cfg);
    w := INITIAL.(memory := INITIAL.memory.(rows := [CANCELLED]));
    assert [] + [CANCELLED] == [CANCELLED];
  }

  /** Outside a dry run, a call that failed is made again under the same key by the next decision on the same
      events, at any time; the executor remembers only calls that were answered. */
  lemma FailedCallIsRepeated(now: int, later: int, ok: bool, cfg: Config) returns (moves: seq<Move>)
    requires cfg.fold.Valid() && !cfg.exec.dryRun
    ensures IsRun(INITIAL, moves, cfg)
    ensures var outcomes := Reached(moves, cfg).memory.ledger.outcomes;
            && |outcomes| == 2 && FromCall(outcomes[0]) && FromCall(outcomes[1])
            && outcomes[0].idemKey == outcomes[1].idemKey
            && outcomes[0].status == FailedCall && outcomes[1].status == if ok then Executed else FailedCall
  {
    var w := Stored(cfg);
    var first, a, x := LinkOnce(w, now, false, cfg);
    var second, b, y := LinkOnce(x, later, ok, cfg);
    Joined(INITIAL, [Deliver(CANCELLED)], w, first, x, cfg);
    Joined(INITIAL, [Deliver(CANCELLED)] + first, x, second, y, cfg);
    moves := [Deliver(CANCELLED)] + first + second;
    assert y.memory.ledger.outcomes == [a, if ok then b.(status := Executed) else b];
  }
}
