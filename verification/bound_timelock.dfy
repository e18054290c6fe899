/**
  The current timelock program with queued transactions bound to the
  timelock they were queued under. In the program itself nothing ties a
  transaction to a timelock, so executing it through another timelock
  escapes the delay it was queued with; here `Execute` refuses a timelock
  other than the recorded one and otherwise behaves as `Timelock.Execute`.
 */
module BoundTimelock {
  import opened Runtime
  import opened Transactions
  import Timelock

  /** A queued transaction together with the key of the timelock it was queued under. */
  datatype BoundTransaction = BoundTransaction(timelockKey: Pubkey, tx: Transaction)

  /** Why a bound execution failed. */
  datatype BoundError = TimelockMismatch | Failed(cause: ExecuteError)

  /** Queues as `queue_transaction` does and records the timelock's key. */
  function Queue(timelockKey: Pubkey, timelock: Timelock.Timelock, now: int,
                 pid: Pubkey, accs: seq<TransactionAccount>, data: seq<u8>): (b: BoundTransaction)
    ensures b.timelockKey == timelockKey
    ensures b.tx.programId == pid && b.tx.accounts == accs && b.tx.data == data
    ensures b.tx.executableAt == now + timelock.delay && !b.tx.didExecute
  {
    BoundTransaction(timelockKey, Transactions.Queue(timelock.delay, now, pid, accs, data))
  }

  /** Executes only through the timelock the transaction was queued under. */
  function Execute(timelockKey: Pubkey, timelock: Timelock.Timelock, signer: Pubkey, b: BoundTransaction,
                   now: int, invoke: Invoke): (r: Result<BoundTransaction, BoundError>)
    ensures r == Err(TimelockMismatch) <==> b.timelockKey != timelockKey
    ensures r.Ok? ==> b.timelockKey == timelockKey && !b.tx.didExecute && now >= b.tx.executableAt
    ensures r.Ok? ==> r.value == b.(tx := b.tx.(didExecute := true))
    ensures b.timelockKey == timelockKey ==>
              (r.Ok? <==> Timelock.Execute(timelockKey, timelock, signer, b.tx, now, invoke).Ok?)
  {
    if b.timelockKey != timelockKey then Err(TimelockMismatch)
    else
      match Timelock.Execute(timelockKey, timelock, signer, b.tx, now, invoke)
      case Ok(tx) => Ok(b.(tx := tx))
      case Err(e) => Err(Failed(e))
  }

  /**
    With each key naming one timelock account (`accountOf`), a transaction
    runs only through the timelock it was queued under, only once that
    timelock's delay has passed since it was queued, and signed with that
    timelock's seeds.
   */
  lemma DelayCannotBeBypassed(accountOf: Pubkey -> Timelock.Timelock, queuedKey: Pubkey, executedKey: Pubkey,
                              signer: Pubkey, queued: int, now: int,
                              pid: Pubkey, accs: seq<TransactionAccount>, data: seq<u8>, invoke: Invoke)
    requires var b := Queue(queuedKey, accountOf(queuedKey), queued, pid, accs, data);
             Execute(executedKey, accountOf(executedKey), signer, b, now, invoke).Ok?
    ensures executedKey == queuedKey
    ensures now >= queued + accountOf(executedKey).delay
    ensures var b := Queue(queuedKey, accountOf(queuedKey), queued, pid, accs, data);
            invoke(Timelock.BuildInstruction(b.tx, signer), Timelock.Seeds(queuedKey, accountOf(queuedKey))) == Invoked
  {
  }
}
