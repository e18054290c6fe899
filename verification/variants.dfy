/**
  How the two versions of the timelock program relate: where their
  executions agree, and where they part.
 */
module Variants {
  import opened Runtime
  import opened Transactions
  import Timelock
  import ExampleTimelock

  /**
    When the queued accounts already mark the timelock signer as a
    read-only signer (or do not mention it), both versions hand the same
    instruction to the target and reach the same outcome, given the same
    delay and nonce. In the program this comparison concerns a signer that
    passes the current version's seeds constraint: with any other account
    the current version is refused before its handler runs, while the
    earlier version, which has no such constraint, runs the call.
   */
  lemma AgreeWhenSignerAlreadyMarked(timelockKey: Pubkey, delay: int, nonce: u8, bump: u8, signer: Pubkey,
                                     tx: Transaction, now: int, invoke: Invoke)
    requires forall i :: 0 <= i < |tx.accounts| && tx.accounts[i].pubkey == signer ==>
               tx.accounts[i].isSigner && !tx.accounts[i].isWritable
    ensures Timelock.BuildInstruction(tx, signer) == ToInstruction(tx)
    ensures Timelock.Execute(timelockKey, Timelock.Timelock(delay, nonce, bump), signer, tx, now, invoke)
            == ExampleTimelock.Execute(timelockKey, ExampleTimelock.Timelock(delay, nonce), tx, now, invoke)
  {
    var ix := ToInstruction(tx);
    Timelock.RewriteSignersFixpoint(ix.accounts, signer);
  }

  /**
    Wherever the queuer lists the timelock signer other than as a read-only
    signer, the current version hands it over as a read-only signer while
    the earlier version forwards it as queued, so the two instructions differ.
   */
  lemma RewriteDiffersOnUnmarkedSigner(tx: Transaction, signer: Pubkey, i: int)
    requires 0 <= i < |tx.accounts|
    requires tx.accounts[i].pubkey == signer
    requires !(tx.accounts[i].isSigner && !tx.accounts[i].isWritable)
    ensures Timelock.BuildInstruction(tx, signer).accounts[i] == AccountMeta(signer, true, false)
    ensures ToInstruction(tx).accounts[i] == AccountMeta(signer, tx.accounts[i].isSigner, tx.accounts[i].isWritable)
    ensures Timelock.BuildInstruction(tx, signer) != ToInstruction(tx)
  {
    assert Timelock.BuildInstruction(tx, signer).accounts[i] != ToInstruction(tx).accounts[i];
  }

  /** The two versions report `NotDelayElapsed` alike but word `AlreadyExecuted` differently. */
  lemma MessagesDiffer()
    ensures Timelock.Message(NotDelayElapsed) == ExampleTimelock.Message(NotDelayElapsed)
    ensures Timelock.Message(AlreadyExecuted) != ExampleTimelock.Message(AlreadyExecuted)
  {
  }
}
