/** Named refusals of the Bitcoin actuator. */
module ActuatorErrors {
  datatype Error =
    | InvalidScope | InvalidTransaction | TransactionMismatch | UnsafeReplacement
    | DatabasePresent | DatabaseMissing | CreationIncomplete | InvalidStorageAuthority
    | CorruptState | LeaseHeld | StaleFencing | InvalidTime | EffectNotFound
    | IdempotencyConflict | InvalidState | TerminalConflict | ExternalizationAmbiguous
    | ReconciliationRequired | Rpc | RpcScopeMismatch | ClaimAuthorityMismatch
    | ClaimNonceCustody | ClaimCryptography | FundingNotArmed | LiveFunding | Storage

  datatype Result<+T> = Ok(value: T) | Err(error: Error) {
    predicate IsFailure() { Err? }
    function PropagateFailure<U>(): Result<U> requires Err? { Err(error) }
    function Extract(): T requires Ok? { value }
  }

  datatype Unit = Unit

  /** A guard: passes, or refuses with the named error. */
  function Check(condition: bool, error: Error): Result<Unit> {
    if condition then Ok(Unit) else Err(error)
  }
}
