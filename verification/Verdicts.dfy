/** The verdict vocabulary of core/verdicts.py. Confidences are ten-thousandths. */
module Verdicts {
  import opened Common
  import opened Events
  import Claims

  datatype Verdict = OrderSettled | ConfirmedFailed | UncapturedAuth | PendingTat | DuplicateRisk | Unresolved

  datatype Action = Noop | Capture | SendRecoveryLink | Refund | Escalate | NotifyMerchant | VoiceCall | Hold

  predicate MoneyMoving(a: Action) {
    a == Capture || a == SendRecoveryLink || a == Refund
  }

  function ConfidenceFloor(a: Action): nat {
    match a
    case Noop => 0
    case Escalate => 0
    case Hold => 0
    case NotifyMerchant => 6_000
    case Capture => 8_000
    case VoiceCall => 8_500
    case SendRecoveryLink => 9_000
    case Refund => 9_500
  }

  function ProposedAction(v: Verdict): Action {
    match v
    case OrderSettled => Noop
    case ConfirmedFailed => SendRecoveryLink
    case UncapturedAuth => Capture
    case PendingTat => Noop
    case DuplicateRisk => Hold
    case Unresolved => Escalate
  }

  predicate AmbiguousSource(s: ErrorSource) {
    s == Network || s == Gateway || s == Bank || s == Issuer
  }

  predicate TerminalCustomerReason(r: ErrorReason) { !r.OtherReason? }

  predicate PreDebitStep(s: ErrorStep) { s == PaymentInitiation || s == PaymentAuthentication }

  predicate PostDebitStep(s: ErrorStep) { s == PaymentResponse || s == PaymentCapture }

  datatype Source = SettlementSource | DowntimeSource | CustomerClaimSource | OtherSource(name: string)

  /** The keys of a dictionary value that the fold reads; a missing key reads as None or false. */
  datatype EvidenceValue =
    | NoValue
    | Text(text: string)
    | Fields(active: bool, rail: Option<string>, claim: Option<Claims.CustomerClaim>, rawText: string)

  datatype Evidence = Evidence(source: Source, value: EvidenceValue, available: bool)

  /** How many of the probes attempted gave nothing. */
  function Missing(evidence: seq<Evidence>): nat {
    if evidence == [] then 0 else (if evidence[0].available then 0 else 1) + Missing(evidence[1..])
  }
}
