/**
  The current timelock program: `initialize` records the delay and the
  nonce of the program-derived signer, `queue_transaction` stores an
  instruction with the time from which it may run, and
  `execute_transaction` runs it once, signing as the timelock signer.

  The clock is the parameter `now`; the cross-program invocation is the
  parameter `invoke`, whose answer may depend on the instruction and the
  signer seeds it is handed.
 */
module Timelock {
  import opened Runtime
  import opened Transactions

  /** The timelock account. `bump` is declared but never written by the program. */
  datatype Timelock = Timelock(delay: int, nonce: u8, bump: u8)

  /** A freshly allocated timelock account: the runtime zeroes its data. */
  const Zeroed: Timelock := Timelock(0, 0, 0)

  /** `execute_transaction` declares the transaction account `mut`, so its update is stored. */
  const MutTransaction := true

  /** `initialize`: any delay is accepted, negative ones included. */
  function Initialize(timelock: Timelock, delay: int, nonce: u8): (t: Timelock)
    ensures t.delay == delay && t.nonce == nonce
    ensures t.bump == timelock.bump
  {
    timelock.(delay := delay, nonce := nonce)
  }

  /** The per-account step of the signer rewrite in `execute_transaction`. */
  function RewriteSigner(meta: AccountMeta, signer: Pubkey): (m: AccountMeta)
  {
    if meta.pubkey == signer then NewReadonly(meta.pubkey, true) else meta
  }

  /**
    Marks every account whose key is the timelock signer as a read-only
    signer; every other account, and the order and length of the list,
    are kept.
   */
  function RewriteSigners(metas: seq<AccountMeta>, signer: Pubkey): (r: seq<AccountMeta>)
    ensures |r| == |metas|
    ensures forall i :: 0 <= i < |metas| ==> r[i].pubkey == metas[i].pubkey
    ensures forall i :: 0 <= i < |metas| && metas[i].pubkey == signer ==> r[i].isSigner && !r[i].isWritable
    ensures forall i :: 0 <= i < |metas| && metas[i].pubkey != signer ==> r[i] == metas[i]
  {
    if metas == [] then []
    else [RewriteSigner(metas[0], signer)] + RewriteSigners(metas[1..], signer)
  }

  /** Rewriting an already rewritten list changes nothing. */
  lemma RewriteSignersIdempotent(metas: seq<AccountMeta>, signer: Pubkey)
    ensures RewriteSigners(RewriteSigners(metas, signer), signer) == RewriteSigners(metas, signer)
  {
    var once := RewriteSigners(metas, signer);
    var twice := RewriteSigners(once, signer);
    forall i | 0 <= i < |metas|
      ensures twice[i] == once[i]
    {
      if metas[i].pubkey == signer {
        assert twice[i] == AccountMeta(signer, true, false) == once[i];
      }
    }
  }

  /** A list in which the signer is absent, or already a read-only signer, is left as it is. */
  lemma RewriteSignersFixpoint(metas: seq<AccountMeta>, signer: Pubkey)
    requires forall i :: 0 <= i < |metas| && metas[i].pubkey == signer ==> metas[i].isSigner && !metas[i].isWritable
    ensures RewriteSigners(metas, signer) == metas
  {
    var r := RewriteSigners(metas, signer);
    forall i | 0 <= i < |metas|
      ensures r[i] == metas[i]
    {
      if metas[i].pubkey == signer {
        assert r[i] == AccountMeta(signer, true, false) == metas[i];
      }
    }
  }

  /**
    The instruction `execute_transaction` hands to the invoked program: the
    stored target, data and accounts, in order, with the timelock signer
    turned into a read-only signer and every other account as queued.
   */
  function BuildInstruction(tx: Transaction, signer: Pubkey): (ix: Instruction)
    ensures ix.programId == tx.programId && ix.data == tx.data
    ensures |ix.accounts| == |tx.accounts|
    ensures forall i :: 0 <= i < |tx.accounts| ==> ix.accounts[i].pubkey == tx.accounts[i].pubkey
    ensures forall i :: 0 <= i < |tx.accounts| && tx.accounts[i].pubkey == signer ==>
              ix.accounts[i].isSigner && !ix.accounts[i].isWritable
    ensures forall i :: 0 <= i < |tx.accounts| && tx.accounts[i].pubkey != signer ==>
              && ix.accounts[i].isSigner == tx.accounts[i].isSigner
              && ix.accounts[i].isWritable == tx.accounts[i].isWritable
  {
    var ix := ToInstruction(tx);
    ix.(accounts := RewriteSigners(ix.accounts, signer))
  }

  /** The seeds with which the program signs for the timelock signer. */
  function Seeds(timelockKey: Pubkey, timelock: Timelock): (seeds: SignerSeeds)
    ensures seeds.base == timelockKey && seeds.nonce == timelock.nonce
  {
    SignerSeeds(timelockKey, timelock.nonce)
  }

  /**
    `execute_transaction`: refuses a transaction that already ran, then one
    whose time has not come, then invokes the target and only on success
    marks the transaction as executed.
   */
  function Execute(timelockKey: Pubkey, timelock: Timelock, signer: Pubkey, tx: Transaction, now: int, invoke: Invoke)
    : (r: Result<Transaction, ExecuteError>)
    ensures tx.didExecute ==> r == Err(Program(AlreadyExecuted))
    ensures r == Err(Program(NotDelayElapsed)) <==> !tx.didExecute && tx.executableAt > now
    ensures r.Ok? <==>
              && !tx.didExecute && tx.executableAt <= now
              && invoke(BuildInstruction(tx, signer), Seeds(timelockKey, timelock)).Invoked?
    ensures r.Ok? ==> r.value == tx.(didExecute := true)
    ensures r.Err? && r.error.Cpi? <==>
              && !tx.didExecute && tx.executableAt <= now
              && invoke(BuildInstruction(tx, signer), Seeds(timelockKey, timelock)).InvokeFailed?
    ensures r.Err? && r.error.Cpi? ==>
              r.error.cause == invoke(BuildInstruction(tx, signer), Seeds(timelockKey, timelock)).error
  {
    if tx.didExecute then Err(Program(AlreadyExecuted))
    else if tx.executableAt > now then Err(Program(NotDelayElapsed))
    else
      match invoke(BuildInstruction(tx, signer), Seeds(timelockKey, timelock))
      case InvokeFailed(e) => Err(Cpi(e))
      case Invoked => Ok(tx.(didExecute := true))
  }

  /** A timelock created by `initialize` signs with the nonce it was given. */
  lemma InitializedSeedsUseNonce(timelockKey: Pubkey, delay: int, nonce: u8)
    ensures Seeds(timelockKey, Initialize(Zeroed, delay, nonce)) == SignerSeeds(timelockKey, nonce)
  {
  }

  /** The error messages of this version. */
  function Message(code: ErrorCode): (m: string)
    ensures m == "Timelock delay has not elapsed." <==> code == NotDelayElapsed
    ensures m == "Transaction has already been executed." <==> code == AlreadyExecuted
  {
    match code
    case NotDelayElapsed => "Timelock delay has not elapsed."
    case AlreadyExecuted => "Transaction has already been executed."
  }

  /** A caller can tell the two errors apart by their message. */
  lemma MessageIdentifiesCode(a: ErrorCode, b: ErrorCode)
    requires Message(a) == Message(b)
    ensures a == b
  {
  }

  /** An executed transaction is refused before its time is looked at, and stays as it is. */
  lemma AlreadyExecutedIsFinal(timelockKey: Pubkey, timelock: Timelock, signer: Pubkey, tx: Transaction, now: int, invoke: Invoke)
    requires tx.didExecute
    ensures Execute(timelockKey, timelock, signer, tx, now, invoke) != Err(Program(NotDelayElapsed))
    ensures Commit(tx, Execute(timelockKey, timelock, signer, tx, now, invoke), MutTransaction) == tx
  {
  }

  /**
    The delay gate of a queued transaction: before `queued + delay` every
    execution fails with `NotDelayElapsed`; from that instant on (the
    boundary included) it never does.
   */
  lemma DelayGate(timelockKey: Pubkey, timelock: Timelock, signer: Pubkey, queued: int, now: int,
                  pid: Pubkey, accs: seq<TransactionAccount>, data: seq<u8>, invoke: Invoke)
    ensures var tx := Queue(timelock.delay, queued, pid, accs, data);
            Execute(timelockKey, timelock, signer, tx, now, invoke) == Err(Program(NotDelayElapsed))
            <==> now < queued + timelock.delay
  {
  }

  /**
    A transaction queued under a delay set by `initialize` runs, once its
    time has come and the target accepts it, with the target, data and
    signer seeds that were given.
   */
  lemma InitializeQueueExecute(timelockKey: Pubkey, prior: Timelock, delay: int, nonce: u8, signer: Pubkey,
                               queued: int, now: int, pid: Pubkey, accs: seq<TransactionAccount>, data: seq<u8>,
                               invoke: Invoke)
    requires now >= queued + delay
    requires forall ix, seeds :: invoke(ix, seeds) == Invoked
    ensures var timelock := Initialize(prior, delay, nonce);
            var tx := Queue(timelock.delay, queued, pid, accs, data);
            && Execute(timelockKey, timelock, signer, tx, now, invoke) == Ok(tx.(didExecute := true))
            && BuildInstruction(tx, signer).programId == pid
            && BuildInstruction(tx, signer).data == data
            && Seeds(timelockKey, timelock) == SignerSeeds(timelockKey, nonce)
  {
  }

  /**
    After a successful execution the stored record is marked executed, and
    every further attempt on it fails with `AlreadyExecuted`, whichever
    timelock and signer it names and whatever the clock and target do.
   */
  lemma ExecuteOnce(timelockKey: Pubkey, timelock: Timelock, signer: Pubkey, tx: Transaction, now: int, invoke: Invoke,
                    otherKey: Pubkey, other: Timelock, otherSigner: Pubkey, later: int, invokeAgain: Invoke)
    requires Execute(timelockKey, timelock, signer, tx, now, invoke).Ok?
    ensures var stored := Commit(tx, Execute(timelockKey, timelock, signer, tx, now, invoke), MutTransaction);
            && stored == tx.(didExecute := true)
            && Execute(otherKey, other, otherSigner, stored, later, invokeAgain) == Err(Program(AlreadyExecuted))
  {
  }

  /**
    A failed invocation leaves the record as it was, so a retry is treated
    exactly like the first attempt: it runs once the target accepts.
   */
  lemma FailedInvokeAllowsRetry(timelockKey: Pubkey, timelock: Timelock, signer: Pubkey, tx: Transaction, now: int,
                                invoke: Invoke, later: int, invokeAgain: Invoke)
    requires Execute(timelockKey, timelock, signer, tx, now, invoke).Err?
    requires Execute(timelockKey, timelock, signer, tx, now, invoke).error.Cpi?
    requires later >= now
    requires invokeAgain(BuildInstruction(tx, signer), Seeds(timelockKey, timelock)) == Invoked
    ensures Commit(tx, Execute(timelockKey, timelock, signer, tx, now, invoke), MutTransaction) == tx
    ensures !tx.didExecute
    ensures Execute(timelockKey, timelock, signer, tx, later, invokeAgain) == Ok(tx.(didExecute := true))
  {
  }

  /**
    One `execute_transaction` call: the timelock and signer accounts it
    names, the clock reading, and the target's behaviour at that moment.
   */
  datatype Attempt = Attempt(timelockKey: Pubkey, timelock: Timelock, signer: Pubkey, now: int, invoke: Invoke)

  /** The record after a series of execution attempts, and how many of them succeeded. */
  datatype Trace = Trace(final: Transaction, successes: nat)

  /** Runs the attempts in order against one transaction record, keeping each call's stored state. */
  function Run(tx: Transaction, attempts: seq<Attempt>): (t: Trace)
    decreases |attempts|
  {
    if attempts == [] then Trace(tx, 0)
    else
      var a := attempts[0];
      var r := Execute(a.timelockKey, a.timelock, a.signer, tx, a.now, a.invoke);
      var rest := Run(Commit(tx, r, MutTransaction), attempts[1..]);
      Trace(rest.final, rest.successes + if r.Ok? then 1 else 0)
  }

  /**
    Exactly-once execution: over any series of attempts, whichever
    timelock and signer accounts each one names, at most one succeeds, none
    succeeds on a record that had already run, one succeeded exactly when
    the record ends up executed, and no field other than `didExecute` ever
    changes.
   */
  lemma {:induction false} AtMostOnce(tx: Transaction, attempts: seq<Attempt>)
    ensures var t := Run(tx, attempts);
            && t.successes <= 1
            && (tx.didExecute ==> t.successes == 0 && t.final == tx)
            && (!tx.didExecute ==> (t.successes == 1 <==> t.final.didExecute))
            && t.final == tx.(didExecute := t.final.didExecute)
    decreases |attempts|
  {
    if attempts != [] {
      var a := attempts[0];
      var r := Execute(a.timelockKey, a.timelock, a.signer, tx, a.now, a.invoke);
      AtMostOnce(Commit(tx, r, MutTransaction), attempts[1..]);
    }
  }

  /**
    Nothing ties a transaction to the timelock it was queued under:
    queued under a timelock with a short delay, it runs as soon as that
    delay is over even when executed through a timelock with a longer one,
    and it is signed with that other timelock's seeds.
   */
  lemma ForeignTimelockBypassesDelay(queuedUnder: Timelock, key: Pubkey, timelock: Timelock, signer: Pubkey,
                                     queued: int, pid: Pubkey, accs: seq<TransactionAccount>, data: seq<u8>,
                                     invoke: Invoke)
    requires queuedUnder.delay < timelock.delay
    requires forall ix, seeds :: invoke(ix, seeds) == Invoked
    ensures var tx := Queue(queuedUnder.delay, queued, pid, accs, data);
            var now := queued + queuedUnder.delay;
            && now < queued + timelock.delay
            && Execute(key, timelock, signer, tx, now, invoke) == Ok(tx.(didExecute := true))
            && Seeds(key, timelock) == SignerSeeds(key, timelock.nonce)
  {
  }
}
