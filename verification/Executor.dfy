/** The executor of services/executor/main.py: outcomes, the executed keys and the exception queue. */
module Executor {
  import opened Common
  import opened Verdicts
  import opened Gate

  datatype Status = Executed | Stubbed | Skipped | Vetoed | FailedCall

  datatype Outcome = Outcome(orderId: string, paymentId: string, action: Action, status: Status, idemKey: Key)

  datatype QueueItem = QueueItem(orderId: string, paymentId: string)

  /** The executor's memory, as a value. */
  datatype Ledger = Ledger(executed: map<Key, Outcome>, outcomes: seq<Outcome>, queue: seq<QueueItem>)

  datatype ExecConfig = ExecConfig(dryRun: bool, whatsappConfigured: bool)

  /** An outcome that did something: the statuses `_record` remembers. */
  predicate Acts(o: Outcome) { o.status == Executed || o.status == Stubbed }

  /** The actions a human has to work. */
  predicate ForHuman(a: Action) { a == Escalate || a == Hold || a == VoiceCall }

  /** `_record` */
  function Recorded(x: Ledger, o: Outcome): Ledger {
    x.(outcomes := x.outcomes + [o],
       executed := if Acts(o) then x.executed[o.idemKey := o] else x.executed)
  }

  /** A link is handed to an outside service only on a live channel outside a dry run. */
  predicate LinkCalls(channel: Option<Channel>, cfg: ExecConfig) {
    && !cfg.dryRun
    && if channel == Some(Whatsapp) then cfg.whatsappConfigured
       else channel == Some(Sms) || channel == Some(Email)
  }

  /** Does this action wait for an outside service? */
  predicate Calls(intent: RecoveryIntent, cfg: ExecConfig) {
    match intent.action
    case Capture => !cfg.dryRun
    case Refund => !cfg.dryRun
    case SendRecoveryLink => LinkCalls(intent.channel, cfg)
    case _ => false
  }

  function LocalStatus(a: Action): Status {
    if MoneyMoving(a) || a == VoiceCall then Stubbed else Executed
  }

  /** What `execute` does up to its first await: it is done, or waits with this outcome in hand. */
  datatype Attempt = Done(ledger: Ledger) | Awaiting(base: Outcome)

  function Begin(x: Ledger, d: GateDecision, intent: RecoveryIntent, orderId: string, paymentId: string,
                 cfg: ExecConfig): Attempt {
    if !d.allowed then Done(Recorded(x, Outcome(orderId, paymentId, Noop, Vetoed, d.idemKey)))
    else if d.idemKey in x.executed then
      Done(Recorded(x, Outcome(orderId, paymentId, intent.action, Skipped, d.idemKey)))
    else if Calls(intent, cfg) then Awaiting(Outcome(orderId, paymentId, intent.action, FailedCall, d.idemKey))
    else
      var queued := if ForHuman(intent.action) then x.(queue := x.queue + [QueueItem(orderId, paymentId)]) else x;
      Done(Recorded(queued, Outcome(orderId, paymentId, intent.action, LocalStatus(intent.action), d.idemKey)))
  }

  /** The rest of `execute`, once the service has answered or failed. */
  function Resume(x: Ledger, base: Outcome, ok: bool): Ledger {
    Recorded(x, if ok then base.(status := Executed) else base)
  }

  class Executor {
    const cfg: ExecConfig
    var executed: map<Key, Outcome>
    var outcomes: seq<Outcome>
    var exceptionQueue: seq<QueueItem>

    function View(): Ledger
      reads this
    {
      Ledger(executed, outcomes, exceptionQueue)
    }

    constructor (cfg: ExecConfig)
      ensures View() == EMPTY_LEDGER && this.cfg == cfg
    {
      this.cfg := cfg;
      executed, outcomes, exceptionQueue := map[], [], [];
    }

    method Record(o: Outcome)
      modifies this
      ensures View() == Recorded(old(View()), o)
    {
      outcomes := outcomes + [o];
      if Acts(o) {
        executed := executed[o.idemKey := o];
      }
    }

    /** `execute` run without interruption; `ok` is the answer of the outside service. */
    method Execute(d: GateDecision, intent: RecoveryIntent, orderId: string, paymentId: string, ok: bool)
      modifies this
      ensures View() == match Begin(old(View()), d, intent, orderId, paymentId, cfg)
                        case Done(ledger) => ledger
                        case Awaiting(base) => Resume(old(View()), base, ok)
    {
      if !d.allowed {
        Record(Outcome(orderId, paymentId, Noop, Vetoed, d.idemKey));
        return;
      }
      if d.idemKey in executed {
        Record(Outcome(orderId, paymentId, intent.action, Skipped, d.idemKey));
        return;
      }
      if Calls(intent, cfg) {
        Record(Outcome(orderId, paymentId, intent.action, if ok then Executed else FailedCall, d.idemKey));
        return;
      }
      if ForHuman(intent.action) {
        exceptionQueue := exceptionQueue + [QueueItem(orderId, paymentId)];
      }
      Record(Outcome(orderId, paymentId, intent.action, LocalStatus(intent.action), d.idemKey));
    }
  }

  const EMPTY_LEDGER := Ledger(map[], [], [])

  // -------------------------------------------------------------- what the ledger keeps

  ghost predicate OneActPerKey(outcomes: seq<Outcome>) {
    forall i, j :: 0 <= i < j < |outcomes| && Acts(outcomes[i]) && Acts(outcomes[j]) ==>
      outcomes[i].idemKey != outcomes[j].idemKey
  }

  ghost predicate RemembersActs(x: Ledger) {
    forall k :: k in x.executed <==> exists o :: o in x.outcomes && Acts(o) && o.idemKey == k
  }

  function QueueOf(outcomes: seq<Outcome>): seq<QueueItem> {
    if outcomes == [] then []
    else
      var o := outcomes[|outcomes| - 1];
      QueueOf(outcomes[..|outcomes| - 1])
      + (if Acts(o) && ForHuman(o.action) then [QueueItem(o.orderId, o.paymentId)] else [])
  }

  /** One act per key, the executed keys are the keys of those acts, and the exception queue
      holds one entry for each act that a human has to work, in order. */
  ghost predicate LedgerOk(x: Ledger) {
    OneActPerKey(x.outcomes) && RemembersActs(x) && x.queue == QueueOf(x.outcomes)
  }

  /** What goes to an outside service: in a live run captures, refunds, and links over SMS, email, or WhatsApp once
      it is set up; nothing else, and in a dry run nothing at all. */
  lemma CallsIff(intent: RecoveryIntent, cfg: ExecConfig)
    ensures Calls(intent, cfg) <==>
            && !cfg.dryRun
            && (intent.action == Capture || intent.action == Refund
                || (intent.action == SendRecoveryLink
                    && (intent.channel == Some(Sms) || intent.channel == Some(Email)
                        || (intent.channel == Some(Whatsapp) && cfg.whatsappConfigured))))
  {
  }

  /** How the first part of `execute` ends, by its three tests: what it records, and that a human gets exactly the
      escalations, holds and calls that it carries out. */
  lemma BeginRecorded(x: Ledger, d: GateDecision, intent: RecoveryIntent, orderId: string, paymentId: string,
                      cfg: ExecConfig)
    ensures var a := Begin(x, d, intent, orderId, paymentId, cfg);
            var carried := d.allowed && d.idemKey !in x.executed;
            var status := if !d.allowed then Vetoed else if d.idemKey in x.executed then Skipped
                          else if intent.action in {Capture, Refund, SendRecoveryLink, VoiceCall} then Stubbed
                          else Executed;
            && (a.Awaiting? <==> carried && Calls(intent, cfg))
            && (a.Awaiting? ==> a.base == Outcome(orderId, paymentId, intent.action, FailedCall, d.idemKey))
            && (a.Done? ==>
                  && a.ledger.outcomes
                     == x.outcomes + [Outcome(orderId, paymentId, if d.allowed then intent.action else Noop, status,
                                              d.idemKey)]
                  && a.ledger.queue == x.queue + (if carried && intent.action in {Escalate, Hold, VoiceCall}
                                                  then [QueueItem(orderId, paymentId)] else []))
  {
  }

  lemma RecordedStaysOne(outcomes: seq<Outcome>, executed: map<Key, Outcome>, o: Outcome)
    requires OneActPerKey(outcomes) && RemembersActs(Ledger(executed, outcomes, []))
    requires Acts(o) ==> o.idemKey !in executed
    ensures OneActPerKey(outcomes + [o])
  {
    var after := outcomes + [o];
    forall i, j | 0 <= i < j < |after| && Acts(after[i]) && Acts(after[j])
      ensures after[i].idemKey != after[j].idemKey
    {
      if j == |outcomes| {
        assert outcomes[i] in outcomes;
      }
    }
  }

  lemma RecordedIsRemembered(x: Ledger, o: Outcome)
    requires RemembersActs(x)
    ensures RemembersActs(Recorded(x, o))
  {
    var y := Recorded(x, o);
    forall k ensures k in y.executed <==> exists p :: p in y.outcomes && Acts(p) && p.idemKey == k {
      if k in x.executed {
        var p :| p in x.outcomes && Acts(p) && p.idemKey == k;
        assert p in y.outcomes;
      }
      if Acts(o) && k == o.idemKey {
        assert o in y.outcomes;
      }
    }
  }

  lemma QueueGrows(outcomes: seq<Outcome>, o: Outcome)
    ensures QueueOf(outcomes + [o])
            == QueueOf(outcomes) + (if Acts(o) && ForHuman(o.action) then [QueueItem(o.orderId, o.paymentId)] else [])
  {
    assert (outcomes + [o])[..|outcomes|] == outcomes;
  }

  lemma RecordKeeps(x: Ledger, y: Ledger, o: Outcome)
    requires OneActPerKey(x.outcomes) && RemembersActs(x)
    requires Acts(o) ==> o.idemKey !in x.executed
    requires y == Recorded(x.(queue := y.queue), o)
    requires x.queue == QueueOf(x.outcomes)
    requires y.queue == x.queue + (if Acts(o) && ForHuman(o.action) then [QueueItem(o.orderId, o.paymentId)] else [])
    ensures LedgerOk(y)
  {
    RecordedStaysOne(x.outcomes, x.executed, o);
    RecordedIsRemembered(x.(queue := y.queue), o);
    QueueGrows(x.outcomes, o);
  }

  /** Whatever the gate decided, the first part of `execute` keeps the ledger. */
  lemma BeginKeeps(x: Ledger, d: GateDecision, intent: RecoveryIntent, orderId: string, paymentId: string,
                   cfg: ExecConfig)
    requires LedgerOk(x)
    ensures var a := Begin(x, d, intent, orderId, paymentId, cfg);
            && (a.Done? ==> LedgerOk(a.ledger) && x.outcomes < a.ledger.outcomes)
            && (a.Awaiting? ==>
                  && a.base.idemKey == d.idemKey && d.idemKey !in x.executed && a.base.orderId == orderId
                  && d.allowed && a.base.status == FailedCall
                  && a.base.action == intent.action && MoneyMoving(intent.action))
  {
    var a := Begin(x, d, intent, orderId, paymentId, cfg);
    if a.Done? {
      RecordKeeps(x, a.ledger, a.ledger.outcomes[|x.outcomes|]);
    }
  }

  /** And the rest does, as long as nobody recorded the same key meanwhile. */
  lemma ResumeKeeps(x: Ledger, base: Outcome, ok: bool)
    requires LedgerOk(x) && base.idemKey !in x.executed && MoneyMoving(base.action) && base.status == FailedCall
    ensures LedgerOk(Resume(x, base, ok))
  {
    RecordKeeps(x, Resume(x, base, ok), if ok then base.(status := Executed) else base);
  }
}
