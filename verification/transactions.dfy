/**
  The records and conversions that both versions of the timelock program
  declare identically: the queued `Transaction`, its `TransactionAccount`
  entries, the `From` conversions into a runtime `Instruction`, and the
  program's error codes.
 */
module Transactions {
  import opened Runtime

  /** One account of a queued transaction, as supplied by the queuer. */
  datatype TransactionAccount = TransactionAccount(pubkey: Pubkey, isSigner: bool, isWritable: bool)

  /** A queued transaction record. */
  datatype Transaction = Transaction(
    programId: Pubkey,                  // target program to execute against
    accounts: seq<TransactionAccount>,  // accounts the target instruction needs
    data: seq<u8>,                      // opaque instruction data
    executableAt: int,                  // unix time from which execution is allowed
    didExecute: bool                    // set once, after a successful execution
  )

  /** The program's own error codes (their messages differ per version). */
  datatype ErrorCode = NotDelayElapsed | AlreadyExecuted

  /** Why `execute_transaction` failed: a guard of the program, or the invoked program's error. */
  datatype ExecuteError = Program(code: ErrorCode) | Cpi(cause: ProgramError)

  /** `From<TransactionAccount> for AccountMeta`: field-for-field, via `new` or `new_readonly`. */
  function ToAccountMeta(account: TransactionAccount): (meta: AccountMeta)
    ensures meta.pubkey == account.pubkey
    ensures meta.isSigner == account.isSigner
    ensures meta.isWritable == account.isWritable
  {
    match account.isWritable
    case false => NewReadonly(account.pubkey, account.isSigner)
    case true => NewWritable(account.pubkey, account.isSigner)
  }

  /** Two accounts convert to the same metadata only if they are the same account. */
  lemma ToAccountMetaInjective(a: TransactionAccount, b: TransactionAccount)
    requires ToAccountMeta(a) == ToAccountMeta(b)
    ensures a == b
  {
  }

  /** The account list of an instruction: each queued account converted, in the queued order. */
  function ToAccountMetas(accounts: seq<TransactionAccount>): (metas: seq<AccountMeta>)
    ensures |metas| == |accounts|
    ensures forall i :: 0 <= i < |accounts| ==> metas[i] == ToAccountMeta(accounts[i])
  {
    if accounts == [] then []
    else [ToAccountMeta(accounts[0])] + ToAccountMetas(accounts[1..])
  }

  /** `From<&Transaction> for Instruction`: target, data and every account forwarded verbatim. */
  function ToInstruction(tx: Transaction): (ix: Instruction)
    ensures ix.programId == tx.programId
    ensures ix.data == tx.data
    ensures |ix.accounts| == |tx.accounts|
    ensures forall i :: 0 <= i < |tx.accounts| ==>
              && ix.accounts[i].pubkey == tx.accounts[i].pubkey
              && ix.accounts[i].isSigner == tx.accounts[i].isSigner
              && ix.accounts[i].isWritable == tx.accounts[i].isWritable
  {
    Instruction(tx.programId, ToAccountMetas(tx.accounts), tx.data)
  }

  /** Two different account lists never convert to the same list of account metadata. */
  lemma {:induction false} ToAccountMetasInjective(a: seq<TransactionAccount>, b: seq<TransactionAccount>)
    requires ToAccountMetas(a) == ToAccountMetas(b)
    ensures a == b
  {
    assert |a| == |b|;
    forall i | 0 <= i < |a|
      ensures a[i] == b[i]
    {
      ToAccountMetaInjective(a[i], b[i]);
    }
  }

  /**
    `queue_transaction`, shared by both versions: stores target, accounts
    and data as given, and stamps the record with `now + delay`, where
    `delay` is read from the timelock account passed to the call.
   */
  function Queue(delay: int, now: int, pid: Pubkey, accs: seq<TransactionAccount>, data: seq<u8>): (tx: Transaction)
    ensures tx.programId == pid && tx.accounts == accs && tx.data == data
    ensures tx.executableAt == now + delay
    ensures !tx.didExecute
  {
    Transaction(pid, accs, data, now + delay, false)
  }

  /**
    The transaction record stored after an `execute_transaction` call. A
    failed instruction's writes are discarded by the runtime, and Anchor
    writes a handler's changes back only to accounts declared `mut`
    (`writeBack`); in every other case the old record stays.
   */
  function Commit(tx: Transaction, r: Result<Transaction, ExecuteError>, writeBack: bool): (kept: Transaction)
    ensures kept == tx || (r.Ok? && kept == r.value)
    ensures r.Err? || !writeBack ==> kept == tx
    ensures r.Ok? && writeBack ==> kept == r.value
  {
    match r
    case Ok(updated) => if writeBack then updated else tx
    case Err(_) => tx
  }
}
