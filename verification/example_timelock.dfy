/**
  The earlier version of the timelock program. It differs from the current
  one in six ways: the timelock account has no `bump` field; `initialize`
  takes no nonce and leaves the stored one untouched; the
  `timelock_signer` account of `execute_transaction` carries no seeds
  constraint, so any account is accepted there; `execute_transaction`
  forwards the accounts without rewriting the signer; its transaction
  account is not declared `mut`, so the executed flag it sets is never
  written back; and the `AlreadyExecuted` message reads differently.
 */
module ExampleTimelock {
  import opened Runtime
  import opened Transactions

  /** The timelock account of this version. */
  datatype Timelock = Timelock(delay: int, nonce: u8)

  /** A freshly allocated timelock account: the runtime zeroes its data. */
  const Zeroed: Timelock := Timelock(0, 0)

  /** `execute_transaction` does not declare the transaction account `mut`, so its update is dropped. */
  const MutTransaction := false

  /** `initialize`: writes the delay only; the nonce keeps whatever the account held. */
  function Initialize(timelock: Timelock, delay: int): (t: Timelock)
    ensures t.delay == delay
    ensures t.nonce == timelock.nonce
  {
    timelock.(delay := delay)
  }

  /** The seeds with which the program signs: the timelock key and the stored nonce. */
  function Seeds(timelockKey: Pubkey, timelock: Timelock): (seeds: SignerSeeds)
    ensures seeds.base == timelockKey && seeds.nonce == timelock.nonce
  {
    SignerSeeds(timelockKey, timelock.nonce)
  }

  /**
    `execute_transaction`: the same two guards in the same order as the
    current version, then the stored instruction is invoked exactly as
    queued, and the handler's copy of the transaction is marked executed
    only on success (`Commit` decides whether that copy is stored).
   */
  function Execute(timelockKey: Pubkey, timelock: Timelock, tx: Transaction, now: int, invoke: Invoke)
    : (r: Result<Transaction, ExecuteError>)
    ensures tx.didExecute ==> r == Err(Program(AlreadyExecuted))
    ensures r == Err(Program(NotDelayElapsed)) <==> !tx.didExecute && tx.executableAt > now
    ensures r.Ok? <==>
              && !tx.didExecute && tx.executableAt <= now
              && invoke(ToInstruction(tx), Seeds(timelockKey, timelock)).Invoked?
    ensures r.Ok? ==> r.value == tx.(didExecute := true)
    ensures r.Err? && r.error.Cpi? <==>
              && !tx.didExecute && tx.executableAt <= now
              && invoke(ToInstruction(tx), Seeds(timelockKey, timelock)).InvokeFailed?
    ensures r.Err? && r.error.Cpi? ==>
              r.error.cause == invoke(ToInstruction(tx), Seeds(timelockKey, timelock)).error
  {
    if tx.didExecute then Err(Program(AlreadyExecuted))
    else if tx.executableAt > now then Err(Program(NotDelayElapsed))
    else
      match invoke(ToInstruction(tx), Seeds(timelockKey, timelock))
      case InvokeFailed(e) => Err(Cpi(e))
      case Invoked => Ok(tx.(didExecute := true))
  }

  /** The error messages of this version. */
  function Message(code: ErrorCode): (m: string)
    ensures m == "Timelock delay has not elapsed." <==> code == NotDelayElapsed
    ensures m == "The given transaction has already been executed." <==> code == AlreadyExecuted
  {
    match code
    case NotDelayElapsed => "Timelock delay has not elapsed."
    case AlreadyExecuted => "The given transaction has already been executed."
  }

  /** A caller can tell the two errors apart by their message. */
  lemma MessageIdentifiesCode(a: ErrorCode, b: ErrorCode)
    requires Message(a) == Message(b)
    ensures a == b
  {
  }

  /**
    A timelock created by this version's `initialize` signs with nonce 0,
    whatever delay it was given: no nonce ever reaches the account.
   */
  lemma InitializedSeedsUseZeroNonce(timelockKey: Pubkey, delay: int)
    ensures Seeds(timelockKey, Initialize(Zeroed, delay)) == SignerSeeds(timelockKey, 0)
  {
  }

  /**
    The delay gate of a queued transaction: before `queued + delay` every
    execution fails with `NotDelayElapsed`; from that instant on it never does.
   */
  lemma DelayGate(timelockKey: Pubkey, timelock: Timelock, queued: int, now: int,
                  pid: Pubkey, accs: seq<TransactionAccount>, data: seq<u8>, invoke: Invoke)
    ensures var tx := Queue(timelock.delay, queued, pid, accs, data);
            Execute(timelockKey, timelock, tx, now, invoke) == Err(Program(NotDelayElapsed))
            <==> now < queued + timelock.delay
  {
  }

  /**
    The handler marks a successful execution, but the mark is not stored:
    the record keeps `didExecute == false`, so a later call whose target
    accepts runs the same transaction again. A failed call leaves the
    record as it was too.
   */
  lemma ExecuteCanReplay(timelockKey: Pubkey, timelock: Timelock, tx: Transaction, now: int, invoke: Invoke,
                         later: int, invokeAgain: Invoke)
    requires later >= now
    requires invokeAgain(ToInstruction(tx), Seeds(timelockKey, timelock)) == Invoked
    ensures var r := Execute(timelockKey, timelock, tx, now, invoke);
            && (r.Ok? ==> r.value.didExecute)
            && Commit(tx, r, MutTransaction) == tx
            && (r.Ok? ==> Execute(timelockKey, timelock, Commit(tx, r, MutTransaction), later, invokeAgain).Ok?)
  {
  }
}
