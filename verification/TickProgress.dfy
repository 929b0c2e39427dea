/** The tick gets through its batch: with the locks free it can decide every due order in turn, each on all its
    stored rows and at the tick's own time. */
module TickProgress {
  import opened Events
  import opened Executor
  import opened SmallRuns
  import opened Worker

  /** Once its decision is recorded and its lock is free: the memory has the decision and the batch moves on. */
  function Ticked(m: Memory, ledger: Ledger, d: Decision): Memory
    requires m.batch != []
  {
    AfterDecision(m, ledger, m.batch[0], d).(batch := m.batch[1..])
  }

  lemma TickSkips(w: World, cfg: Config)
    requires cfg.fold.Valid() && TICK !in w.tasks && w.memory.batch != []
    requires RowsOf(w.memory.rows, w.memory.batch[0]) == []
    ensures Leads(w, [TickLoad], w.(memory := w.memory.(batch := w.memory.batch[1..])), cfg)
  {
    OneMove(w, TickLoad, Next(w, TickLoad, cfg), cfg);
  }

  /** The tick with the order's rows in hand and the lock taken. */
  function TickHolds(w: World, obs: seq<Observation>): World
    requires w.memory.batch != []
  {
    var orderId := w.memory.batch[0];
    World(w.memory.(locks := w.memory.locks[orderId := TICK]),
          w.tasks[TICK := Deciding(orderId, obs, w.memory.tickNow)])
  }

  lemma TickComesToHold(w: World, obs: seq<Observation>, cfg: Config) returns (moves: seq<Move>)
    requires cfg.fold.Valid() && TICK !in w.tasks && w.memory.batch != [] && w.memory.batch[0] !in w.memory.locks
    requires obs == RowsOf(w.memory.rows, w.memory.batch[0]) && obs != []
    ensures Leads(w, moves, TickHolds(w, obs), cfg)
  {
    var orderId := w.memory.batch[0];
    var x := w.(tasks := w.tasks[TICK := Preloaded(orderId, obs, w.memory.tickNow)]);
    TickLoadStep(w, obs, cfg);
    AcquireStep(x, TICK, cfg);
    assert x.tasks[TICK := Deciding(orderId, obs, w.memory.tickNow)] == TickHolds(w, obs).tasks;
    Joined(w, [TickLoad], x, [Acquire(TICK)], TickHolds(w, obs), cfg);
    moves := [TickLoad] + [Acquire(TICK)];
  }

  /** And with the decision recorded, the lock still held. */
  function TickRecorded(w: World, ledger: Ledger, d: Decision): World
    requires w.memory.batch != []
  {
    var orderId := w.memory.batch[0];
    var m := AfterDecision(w.memory, ledger, orderId, d);
    World(m.(locks := m.locks[orderId := TICK]),
          w.tasks[TICK := Writing(orderId, d.obs, d.now, d.evidence, d.verdict)])
  }

  lemma TickRecords(w: World, d: Decision, cfg: Config) returns (moves: seq<Move>, ledger: Ledger)
    requires cfg.fold.Valid() && w.memory.batch != []
    requires d == Plainly(d.obs, w.memory.tickNow, w.memory.batch[0], cfg)
    ensures Leads(TickHolds(w, d.obs), moves, TickRecorded(w, ledger, d), cfg)
  {
    var orderId, v := w.memory.batch[0], TickHolds(w, d.obs);
    moves, ledger := RecordsNothing(v, TICK, orderId, d.obs, d.now, d, cfg);
    TickRecordedIs(w, ledger, d);
  }

  lemma TickRecordedIs(w: World, ledger: Ledger, d: Decision)
    requires w.memory.batch != []
    ensures var orderId, v := w.memory.batch[0], TickHolds(w, d.obs);
            World(AfterDecision(v.memory, ledger, orderId, d),
                  v.tasks[TICK := Writing(orderId, d.obs, d.now, d.evidence, d.verdict)])
            == TickRecorded(w, ledger, d)
  {
    var orderId := w.memory.batch[0];
    var written := Writing(orderId, d.obs, d.now, d.evidence, d.verdict);
    assert TickHolds(w, d.obs).tasks[TICK := written] == w.tasks[TICK := written];
  }

  lemma TickLetsGo(w: World, ledger: Ledger, d: Decision, cfg: Config)
    requires cfg.fold.Valid() && TICK !in w.tasks && w.memory.batch != [] && w.memory.batch[0] !in w.memory.locks
    ensures Leads(TickRecorded(w, ledger, d), [Release(TICK)], World(Ticked(w.memory, ledger, d), w.tasks), cfg)
  {
    var orderId, x := w.memory.batch[0], TickRecorded(w, ledger, d);
    ReleaseStep(x, TICK, cfg);
    assert Dropped(w.memory.locks[orderId := TICK], orderId) == w.memory.locks;
    assert Dropped(w.tasks[TICK := x.tasks[TICK]], TICK) == w.tasks;
  }

  /** The tick decides the order at the head of its batch. */
  lemma TickDecidesNext(w: World, d: Decision, cfg: Config) returns (moves: seq<Move>, ledger: Ledger)
    requires cfg.fold.Valid() && TICK !in w.tasks && w.memory.batch != [] && w.memory.batch[0] !in w.memory.locks
    requires d.obs == RowsOf(w.memory.rows, w.memory.batch[0]) && d.obs != []
    requires d == Plainly(d.obs, w.memory.tickNow, w.memory.batch[0], cfg)
    ensures Leads(w, moves, World(Ticked(w.memory, ledger, d), w.tasks), cfg)
  {
    moves := TickComesToHold(w, d.obs, cfg);
    var records;
    records, ledger := TickRecords(w, d, cfg);
    TickLetsGo(w, ledger, d, cfg);
    Joined(w, moves, TickHolds(w, d.obs), records, TickRecorded(w, ledger, d), cfg);
    moves := moves + records;
    Joined(w, moves, TickRecorded(w, ledger, d), [Release(TICK)], World(Ticked(w.memory, ledger, d), w.tasks), cfg);
    moves := moves + [Release(TICK)];
  }

  /** Every order of the batch that has rows has been decided on all of them at the tick's time, and no other
      decision has changed. */
  ghost predicate AllDecided(m: Memory, n: Memory, cfg: Config)
    requires cfg.fold.Valid()
  {
    && n.batch == [] && n.rows == m.rows && n.locks == m.locks && n.tickNow == m.tickNow
    && (forall o :: o in m.batch && RowsOf(m.rows, o) != [] ==>
          o in n.last && n.last[o] == Plainly(RowsOf(m.rows, o), m.tickNow, o, cfg))
    && forall o :: o !in m.batch ==> (o in n.last <==> o in m.last) && (o in m.last ==> n.last[o] == m.last[o])
  }

  lemma DecidedThenAll(m: Memory, ledger: Ledger, n: Memory, cfg: Config)
    requires cfg.fold.Valid() && m.batch != [] && RowsOf(m.rows, m.batch[0]) != []
    requires var d := Plainly(RowsOf(m.rows, m.batch[0]), m.tickNow, m.batch[0], cfg);
             AllDecided(Ticked(m, ledger, d), n, cfg)
    ensures AllDecided(m, n, cfg)
  {
    HeadAndRest(m, Ticked(m, ledger, Plainly(RowsOf(m.rows, m.batch[0]), m.tickNow, m.batch[0], cfg)), n, cfg);
  }

  lemma HeadAndRest(m: Memory, x: Memory, n: Memory, cfg: Config)
    requires cfg.fold.Valid() && m.batch != [] && AllDecided(x, n, cfg)
    requires x.batch == m.batch[1..] && x.rows == m.rows && x.locks == m.locks && x.tickNow == m.tickNow
    requires x.last == m.last[m.batch[0] := Plainly(RowsOf(m.rows, m.batch[0]), m.tickNow, m.batch[0], cfg)]
    ensures AllDecided(m, n, cfg)
  {
    var head, rest := m.batch[0], m.batch[1..];
    HeadThenAll(m.last, x.last, n.last, m.batch, x.last[head]);
    forall o | o in m.batch && RowsOf(m.rows, o) != []
      ensures o in n.last && n.last[o] == Plainly(RowsOf(m.rows, o), m.tickNow, o, cfg)
    {
      assert m.batch == [head] + rest;
      assert o in rest || (o == head && head !in rest);
    }
  }

  lemma HeadThenAll(before: map<string, Decision>, after: map<string, Decision>, end: map<string, Decision>,
                    batch: seq<string>, d: Decision)
    requires batch != [] && after == before[batch[0] := d]
    requires forall o :: o !in batch[1..] ==> (o in end <==> o in after) && (o in after ==> end[o] == after[o])
    ensures batch[0] !in batch[1..] ==> batch[0] in end && end[batch[0]] == d
    ensures forall o :: o !in batch ==> (o in end <==> o in before) && (o in before ==> end[o] == before[o])
  {
    assert batch == [batch[0]] + batch[1..];
  }

  lemma SkippedThenAll(m: Memory, n: Memory, cfg: Config)
    requires cfg.fold.Valid() && m.batch != [] && RowsOf(m.rows, m.batch[0]) == []
    requires AllDecided(m.(batch := m.batch[1..]), n, cfg)
    ensures AllDecided(m, n, cfg)
  {
    assert m.batch == [m.batch[0]] + m.batch[1..];
  }

  /** The tick gets past the head of its batch. */
  lemma TickMovesOn(w: World, cfg: Config) returns (moves: seq<Move>, x: World)
    requires cfg.fold.Valid() && TICK !in w.tasks && w.memory.batch != [] && w.memory.batch[0] !in w.memory.locks
    ensures Leads(w, moves, x, cfg) && x.tasks == w.tasks
    ensures x.memory.batch == w.memory.batch[1..] && x.memory.locks == w.memory.locks
    ensures forall n :: AllDecided(x.memory, n, cfg) ==> AllDecided(w.memory, n, cfg)
  {
    var m, obs := w.memory, RowsOf(w.memory.rows, w.memory.batch[0]);
    if obs == [] {
      TickSkips(w, cfg);
      moves, x := [TickLoad], w.(memory := m.(batch := m.batch[1..]));
      forall n | AllDecided(x.memory, n, cfg) ensures AllDecided(m, n, cfg) {
        SkippedThenAll(m, n, cfg);
      }
    } else {
      var d, ledger := Plainly(obs, m.tickNow, m.batch[0], cfg), m.ledger;
      moves, ledger := TickDecidesNext(w, d, cfg);
      x := World(Ticked(m, ledger, d), w.tasks);
      forall n | AllDecided(x.memory, n, cfg) ensures AllDecided(m, n, cfg) {
        DecidedThenAll(m, ledger, n, cfg);
      }
    }
  }

  /** From any state in which the tick is between orders and theirs are unlocked, it can decide its whole batch. */
  lemma {:induction false} TickDrainsBatch(w: World, cfg: Config) returns (moves: seq<Move>, x: World)
    requires cfg.fold.Valid() && TICK !in w.tasks && forall o :: o in w.memory.batch ==> o !in w.memory.locks
    ensures Leads(w, moves, x, cfg) && x.tasks == w.tasks && AllDecided(w.memory, x.memory, cfg)
    decreases |w.memory.batch|
  {
    if w.memory.batch == [] {
      moves, x := [], w;
    } else {
      var next, rest;
      moves, next := TickMovesOn(w, cfg);
      assert w.memory.batch == [w.memory.batch[0]] + next.memory.batch;
      rest, x := TickDrainsBatch(next, cfg);
      Joined(w, moves, next, rest, x, cfg);
      moves := moves + rest;
    }
  }
}
