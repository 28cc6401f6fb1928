/** The shared vocabularies: payment and mission states with their transition tables,
    provider answers, reason codes and outbox constants. */
module Vocabulary {

  datatype Option<+T> = None | Some(value: T)

  /** Instants are UTC seconds; only their order and differences matter. */
  type Time = int

  datatype PaymentState =
    | Created | Queued | Processing | ProviderPending
    | Succeeded | FailedRetryable | FailedTerminal | Cancelled

  predicate IsTerminal(s: PaymentState) {
    s.Succeeded? || s.FailedTerminal? || s.Cancelled?
  }

  /** The payment transition table. */
  predicate Allowed(current: PaymentState, target: PaymentState) {
    match current
    case Created => target.Queued? || target.Cancelled?
    case Queued => target.Processing? || target.ProviderPending? || target.Cancelled?
    case Processing =>
      target.Succeeded? || target.ProviderPending? || target.FailedRetryable? || target.FailedTerminal?
    case ProviderPending => target.Succeeded? || target.FailedTerminal? || target.FailedRetryable?
    case FailedRetryable =>
      target.Queued? || target.ProviderPending? || target.FailedTerminal? || target.Cancelled?
    case _ => false
  }

  datatype MissionState =
    | Drafted | IntentParsed | Discovering | OffersReceived | OffersNormalized | Ranked
    | PolicyChecked | AwaitingApproval | Authorized
    | PaymentPending | PaymentSucceeded | PaymentFailed | Completed | Withdrawn

  /** The mission transition table. `Drafted` is PACTRA's CREATED, `Withdrawn` its CANCELLED. */
  predicate CanMove(current: MissionState, target: MissionState) {
    match current
    case Drafted => target.IntentParsed? || target.Withdrawn?
    case IntentParsed => target.Discovering? || target.Withdrawn?
    case Discovering => target.OffersReceived? || target.Withdrawn?
    case OffersReceived => target.OffersNormalized? || target.Withdrawn?
    case OffersNormalized => target.Ranked? || target.Withdrawn?
    case Ranked => target.PolicyChecked? || target.Withdrawn?
    case PolicyChecked => target.AwaitingApproval? || target.Authorized? || target.Withdrawn?
    case AwaitingApproval => target.Authorized? || target.Withdrawn?
    case Authorized => target.PaymentPending? || target.Withdrawn?
    case PaymentPending => target.PaymentSucceeded? || target.PaymentFailed?
    case PaymentSucceeded => target.Completed?
    case PaymentFailed => target.Withdrawn? || target.PaymentPending?
    case _ => false
  }

  datatype Reason =
    | IdempotencyConflict | ProviderTimeout | ProviderTransientFailure | ProviderAmbiguity
    | ProviderTerminalFailure | ProviderResponseMismatch | ProviderPaymentNotFound
    | ProviderCreateFenced | ProviderAttemptFailed | IllegalTransition | WebhookDuplicate
    | ProviderErrorCode

  /** What a provider says about its own payment object. */
  datatype ProviderStatus = StatusCreated | StatusPending | StatusSucceeded | StatusFailed

  function StateOfStatus(status: ProviderStatus): PaymentState {
    match status
    case StatusCreated => ProviderPending
    case StatusPending => ProviderPending
    case StatusSucceeded => PaymentState.Succeeded
    case StatusFailed => FailedTerminal
  }

  /** A payment as the provider reports it; untrusted until validated. */
  datatype Payment = Payment(
    provider: string, reference: string, status: ProviderStatus,
    amount: int, currency: string, key: Option<string>,
    order: Option<string>, transaction: Option<string>, receipt: Option<string>,
    providerStatus: Option<string>, providerAttempts: Option<nat>)

  /** The provider error classes, each with its fixed reason code. */
  datatype ProviderError =
    | TimeoutError | TransientError | AmbiguityError | TerminalError | MismatchError | OtherError

  function ReasonOf(error: ProviderError): Reason {
    match error
    case TimeoutError => ProviderTimeout
    case TransientError => ProviderTransientFailure
    case AmbiguityError => ProviderAmbiguity
    case TerminalError => ProviderTerminalFailure
    case MismatchError => ProviderResponseMismatch
    case OtherError => ProviderErrorCode
  }

  /** What a lookup may do: answer, report nothing, raise a provider error, or blow up. */
  datatype Lookup = Found(payment: Payment) | NotFound | LookupFailed(error: ProviderError) | LookupCrashed

  /** What a create may do: answer, raise a provider error, or blow up. */
  datatype Answer = Answered(payment: Payment) | CreateFailed(error: ProviderError) | CreateCrashed

  datatype OutboxKind = CreateRequested | ReconcileRequested
  datatype OutboxStatus = Pending | InProgress | Processed | DeadLettered

  const DEFAULT_MAX_ATTEMPTS: nat := 8
  const BACKOFF_SECONDS: seq<nat> := [1, 2, 5, 15, 30, 60, 120, 300]

  /** Delay before the next attempt: never zero, never above the last step. */
  function BackoffFor(attempts: nat): (delay: nat)
    ensures 1 <= delay <= 300
  {
    var index := if attempts == 0 then 0 else attempts - 1;
    BACKOFF_SECONDS[if index < 7 then index else 7]
  }
}
