/** Enums and error codes shared by the clearing core (types.rs, error.rs). */
module Clearing {
  import opened Wrappers
  import opened MoleMath

  datatype Direction = Long | Short {
    function Sign(): int {
      if Long? then 1 else -1
    }

    function Opposite(): Direction {
      if Long? then Short else Long
    }
  }

  /** What an `Invariant` error reports. */
  datatype Violation =
    | MissingBucket // redeem from missing bucket
    | ExcessShares // redeem shares exceed bucket total
    | StoreDrift // dormant store inconsistent
    | GcWindow // bucket.last_applied_index points into a GC'd ledger window
    | AheadOfLedger // bucket.last_applied_index ahead of ledger
    | InsideGc // bucket.last_applied_index inside GC'd window
    | AccruedDrift // accrued_value_total drift
    | LedgerDrift // ledger_gc_offset + ledger.len() != next_event_index
    | PendingDrift // pending_distribution_total > sum of allocated_sum_observed in live window
    | ZeroIffBroken // pool equity / active shares zero-iff invariant
    | RecoverySumBroken // recovery_shares does not equal sum of bucket recovery shares
    | NoTickSize // price_tick / aggregation == 0
    | MissingRecord // missing rotate record
    | NoBucket // recovery shares without bucket
    | SharesWithoutEquity // active shares non-zero with zero pool equity
    | ForceClosePositive // force_close called on active position with positive value
    | BadDirection // invalid direction byte
    | BadCount // entry_count != entries.len()
    | TooManyEntries // entry_count > max_entries
    | BadIndex // ledger.entries[i].event_index != gc_offset + i
    | OtherDirection // bucket direction != ledger direction
    | BadNext // next_event_index != ledger_gc_offset + ledger.len()
    | BeforeWindow // bucket.last_applied_index inside GC'd window
    | AheadOfHead // bucket.last_applied_index ahead of ledger head
    | DuplicateTick // duplicate tick in unpack
    | AccruedMismatch // accrued_value_total mismatch
    | PendingMismatch // pending_distribution_total exceeds live-window allocated_sum

  datatype ClearingError =
    | MathOverflow
    | DivisionByZero
    | SignConversion
    | MarketPaused
    | FrozenNewPosition
    | MarginBelowMinimum
    | MarginAboveMaximum
    | OraclePriceZero
    | PriceProtectionFailed
    | PriceMoveTooLarge
    | SharesMintedTooSmall
    | DilutionRiskTooHigh
    | PositionNotOpen
    | WithdrawableZero
    | ForfeitAcknowledgementRequired
    | DormantBucketCapExceeded
    | DormantPendingBudgetExceeded
    | DormantBucketMissing
    | LedgerCapacityExceeded
    | SchemaVersionMismatch
    | Invariant(what: Violation)

  type ClearingResult<+T> = Result<T, ClearingError>

  /** `From<MathError> for ClearingError`. */
  function FromMath<T>(r: MathResult<T>): ClearingResult<T> {
    match r
    case Ok(v) => Ok(v)
    case Err(Overflow) => Err(MathOverflow)
    case Err(DivByZero) => Err(DivisionByZero)
    case Err(SignOverflow) => Err(SignConversion)
  }
}
