/**
  The pieces of the Solana runtime that the timelock program touches:
  public keys, account metadata, instructions, the signer seeds handed to a
  cross-program invocation, and a Rust-style `Result`.
 */
module Runtime {

  /** An unsigned byte (`u8`): instruction data bytes and the PDA nonce. */
  type u8 = b: int | 0 <= b < 256

  /** A public key, kept opaque: the model only ever compares keys. */
  datatype Pubkey = Pubkey(bytes: seq<u8>)

  /** `solana_program::instruction::AccountMeta`. */
  datatype AccountMeta = AccountMeta(pubkey: Pubkey, isSigner: bool, isWritable: bool)

  /** `AccountMeta::new`: a writable account. */
  function NewWritable(pubkey: Pubkey, isSigner: bool): (m: AccountMeta)
  {
    AccountMeta(pubkey, isSigner, true)
  }

  /** `AccountMeta::new_readonly`: a read-only account. */
  function NewReadonly(pubkey: Pubkey, isSigner: bool): (m: AccountMeta)
  {
    AccountMeta(pubkey, isSigner, false)
  }

  /** `solana_program::instruction::Instruction`. */
  datatype Instruction = Instruction(programId: Pubkey, accounts: seq<AccountMeta>, data: seq<u8>)

  /** An error reported by the invoked program, opaque to the caller. */
  datatype ProgramError = ProgramError(code: nat)

  /** The seeds `[base key, [nonce]]` with which the program signs for its derived address. */
  datatype SignerSeeds = SignerSeeds(base: Pubkey, nonce: u8)

  /** Outcome of `invoke_signed`. */
  datatype InvokeResult = Invoked | InvokeFailed(error: ProgramError)

  /** The invoked program, as seen by `invoke_signed`: it receives the instruction and the signer seeds. */
  type Invoke = (Instruction, SignerSeeds) -> InvokeResult

  /** Rust's `Result`, for handler outcomes. */
  datatype Result<+T, +E> = Ok(value: T) | Err(error: E)
}
