/**
 * The domain events of the newer, event-sourced generation: every change to
 * a CFD is an event appended to its log. Transactions, scripts and DLCs are
 * opaque here; only the parts the core reads are kept.
 */
module CfdEvents {
  import opened Common

  type OrderId = nat
  /** A transaction, identified by its content. */
  type Tx = nat

  datatype Position = Long | Short
  datatype Role = Maker | Taker

  /** The parts of a DLC the core reads: its lock transaction and the oracle event it settles on. */
  datatype Dlc = Dlc(lockTx: Tx, settlementEventId: nat)

  datatype EventKind =
    | ContractSetupStarted
    | ContractSetupCompleted(dlc: Dlc)
    | ContractSetupFailed
    | OfferRejected
    | RolloverStarted
    | RolloverAccepted
    | RolloverRejected
    | RolloverCompleted(dlc: Dlc)
    | RolloverFailed
    | CollaborativeSettlementStarted
    | CollaborativeSettlementProposalAccepted
    | CollaborativeSettlementCompleted(spendTx: Tx, script: nat)
    | CollaborativeSettlementRejected
    | CollaborativeSettlementFailed
    | CollaborativeSettlementConfirmed
    | LockConfirmed
    | LockConfirmedAfterFinality
    | ManualCommit(tx: Tx)
    | CommitConfirmed
    | CetConfirmed
    | RefundConfirmed
    | RevokeConfirmed
    | CetTimelockExpiredPriorOracleAttestation
    | CetTimelockExpiredPostOracleAttestation(cet: Tx)
    | RefundTimelockExpired(refundTx: Tx)
    | OracleAttestedPriorCetTimelock(timelockedCet: Tx, commitTx: Option<Tx>)
    | OracleAttestedPostCetTimelock(cet: Tx)

  /** An event of one CFD with the time it was recorded. */
  datatype CfdEvent = CfdEvent(id: OrderId, timestamp: int, event: EventKind)

  /** The name under which an event is stored in the event log: the variant's name. */
  function Name(kind: EventKind): string
  {
    match kind
    case ContractSetupStarted => "ContractSetupStarted"
    case ContractSetupCompleted(_) => "ContractSetupCompleted"
    case ContractSetupFailed => "ContractSetupFailed"
    case OfferRejected => "OfferRejected"
    case RolloverStarted => "RolloverStarted"
    case RolloverAccepted => "RolloverAccepted"
    case RolloverRejected => "RolloverRejected"
    case RolloverCompleted(_) => "RolloverCompleted"
    case RolloverFailed => "RolloverFailed"
    case CollaborativeSettlementStarted => "CollaborativeSettlementStarted"
    case CollaborativeSettlementProposalAccepted => "CollaborativeSettlementProposalAccepted"
    case CollaborativeSettlementCompleted(_, _) => "CollaborativeSettlementCompleted"
    case CollaborativeSettlementRejected => "CollaborativeSettlementRejected"
    case CollaborativeSettlementFailed => "CollaborativeSettlementFailed"
    case CollaborativeSettlementConfirmed => "CollaborativeSettlementConfirmed"
    case LockConfirmed => "LockConfirmed"
    case LockConfirmedAfterFinality => "LockConfirmedAfterFinality"
    case ManualCommit(_) => "ManualCommit"
    case CommitConfirmed => "CommitConfirmed"
    case CetConfirmed => "CetConfirmed"
    case RefundConfirmed => "RefundConfirmed"
    case RevokeConfirmed => "RevokeConfirmed"
    case CetTimelockExpiredPriorOracleAttestation => "CetTimelockExpiredPriorOracleAttestation"
    case CetTimelockExpiredPostOracleAttestation(_) => "CetTimelockExpiredPostOracleAttestation"
    case RefundTimelockExpired(_) => "RefundTimelockExpired"
    case OracleAttestedPriorCetTimelock(_, _) => "OracleAttestedPriorCetTimelock"
    case OracleAttestedPostCetTimelock(_) => "OracleAttestedPostCetTimelock"
  }
}
