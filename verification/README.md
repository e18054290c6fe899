# Timelock program — Dafny model

A model of the Anchor timelock program on Solana. The program lets anyone
queue an arbitrary instruction, made of a target program id, an account list
and opaque data. It is queued under a timelock account, whose delay stamps the
transaction with the time from which it may run. Execution is then allowed
once that time has come. The instruction runs through a timelock and is
signed by that timelock's program-derived signer. The program does not check
that this is the timelock the transaction was queued under (see Findings).
Two versions of the program are modelled side by side:

- `Timelock` (`timelock.dfy`) models the current version in
  `tests/timelock/programs/timelock/src/lib.rs`. It stores the signer's
  nonce at `initialize`. Before invoking the target, `execute_transaction`
  rewrites every account whose key is the timelock signer into a
  read-only signer. The transaction account is declared `mut`, so the
  executed flag is stored.
- `ExampleTimelock` (`example_timelock.dfy`) models the earlier version in
  `examples/timelock/programs/timelock/src/lib.rs`. It differs in six ways:
  - the timelock account has no `bump` field;
  - `initialize` stores only the delay;
  - `timelock_signer` carries no `seeds`/`bump` constraint, so any account is accepted there;
  - the accounts are forwarded without any rewrite;
  - the transaction account of `execute_transaction` is not declared `mut`;
  - its `AlreadyExecuted` message is worded differently.

The two versions share some modules. `Transactions` (`transactions.dfy`)
holds what both files declare identically: the `Transaction` and
`TransactionAccount` records, `queue_transaction`, the two `From`
conversions into a runtime `Instruction`, and the error codes. `Runtime`
(`runtime.dfy`) holds the Solana types the program uses. `Variants`
(`variants.dfy`) relates the two versions. `BoundTimelock`
(`bound_timelock.dfy`) is the corrected form of the first finding below.

Every handler is a pure function. Its inputs are the current account
records, the clock reading `now`, and the cross-program invocation `invoke`.
`invoke` is a function parameter that receives the instruction and the
signer seeds, and answers success or a program error. The result is a
`Result`. `Transactions.Commit` gives the transaction record stored after a
call:
- after a failed instruction, the old record, because the runtime discards
  all its writes;
- after a successful one, the handler's updated record only if the account
  is declared `mut`.

`initialize` accepts any `i64` delay, negative ones included: the program
never validates the delay.

## Model

| member | source | states |
|---|---|---|
| Transactions.ToAccountMeta | tests/timelock/programs/timelock/src/lib.rs:153-160 | the conversion keeps key, signer flag and writable flag of the account, whichever constructor the writable flag selects |
| Transactions.ToAccountMetaInjective | tests/timelock/programs/timelock/src/lib.rs:153-160 | the account conversion loses nothing: equal metadata comes only from equal accounts |
| Transactions.ToAccountMetas | tests/timelock/programs/timelock/src/lib.rs:140 | converting the account list keeps its length and order, and converts each entry on its own |
| Transactions.ToInstruction | tests/timelock/programs/timelock/src/lib.rs:136-144 | the instruction built from a transaction has its program id and data, and the same accounts in the same order with the same key and flags |
| Transactions.ToAccountMetasInjective | examples/timelock/programs/timelock/src/lib.rs:120-128 | two different account lists never convert to the same metadata list, so the instruction determines the queued accounts |
| Transactions.Queue | tests/timelock/programs/timelock/src/lib.rs:26-43 | the queued record holds program id, accounts and data as given, is executable at `now` plus the timelock's delay, and is not executed; the earlier version's handler, examples/timelock/programs/timelock/src/lib.rs:26-43, is the same |
| Transactions.Commit | tests/timelock/programs/timelock/src/lib.rs:106-113 | the stored record is either the old one or the handler's result: the old one after a failure or when the account is not `mut`, the handler's result after a success on a `mut` account |
| Timelock.Initialize | tests/timelock/programs/timelock/src/lib.rs:19-24 | the timelock gets exactly the given delay and nonce, with no check on the delay; the unwritten `bump` field keeps its value |
| Timelock.Seeds | tests/timelock/programs/timelock/src/lib.rs:71-75 | execution signs with seeds made of the timelock account's key and its stored nonce |
| Timelock.InitializedSeedsUseNonce | tests/timelock/programs/timelock/src/lib.rs:71-75 | after `initialize`, execution signs with seeds made of the timelock key and the nonce that was given |
| Timelock.RewriteSigners | tests/timelock/programs/timelock/src/lib.rs:59-69 | the rewrite keeps length, order and every key; accounts with the signer's key become read-only signers; all other accounts are unchanged |
| Timelock.RewriteSignersIdempotent | tests/timelock/programs/timelock/src/lib.rs:59-69 | applying the signer rewrite twice gives the same list as applying it once |
| Timelock.RewriteSignersFixpoint | tests/timelock/programs/timelock/src/lib.rs:59-69 | a list that does not name the signer, or names it only as a read-only signer, is left exactly as it is |
| Timelock.BuildInstruction | tests/timelock/programs/timelock/src/lib.rs:57-69 | the instruction handed to the target keeps program id, data, account order, length and keys; the signer's entries become read-only signers; other entries keep the flags they were queued with |
| Timelock.Execute | tests/timelock/programs/timelock/src/lib.rs:46-85 | an executed record fails with `AlreadyExecuted`, checked first; otherwise `NotDelayElapsed` exactly when `executable_at > now`; otherwise the invocation's error is propagated, or on success the record comes back with only `did_execute` set |
| Timelock.Message | tests/timelock/programs/timelock/src/lib.rs:162-168 | each error code has its own message text, and each text belongs to exactly one code |
| Timelock.MessageIdentifiesCode | tests/timelock/programs/timelock/src/lib.rs:162-168 | the two error messages differ, so a caller can tell the error from its message |
| Timelock.AlreadyExecutedIsFinal | tests/timelock/programs/timelock/src/lib.rs:46-50 | an executed record never reports `NotDelayElapsed`, and a call on it leaves the stored record unchanged |
| Timelock.DelayGate | tests/timelock/programs/timelock/src/lib.rs:26-55 | a transaction queued at time `q` reports `NotDelayElapsed` exactly when executed before `q + delay`; the boundary instant passes |
| Timelock.InitializeQueueExecute | tests/timelock/programs/timelock/src/lib.rs:19-85 | initialize, queue, then execute once the delay has passed: the call succeeds with the queued target and data, signed with the given nonce |
| Timelock.ExecuteOnce | tests/timelock/programs/timelock/src/lib.rs:80-83 | after a successful execution the stored record differs only by `did_execute`, and every later attempt fails with `AlreadyExecuted`, through any timelock and signer and whatever the clock and target do |
| Timelock.FailedInvokeAllowsRetry | tests/timelock/programs/timelock/src/lib.rs:78-83 | a failed invocation leaves the stored record unexecuted and unchanged, and a later retry whose invocation succeeds executes it |
| Timelock.AtMostOnce | tests/timelock/programs/timelock/src/lib.rs:46-85 | over any series of execution attempts, each naming its own timelock and signer, at most one succeeds, none succeeds on an executed record, the record ends executed exactly when one succeeded, and no field other than `did_execute` changes |
| Timelock.ForeignTimelockBypassesDelay | tests/timelock/programs/timelock/src/lib.rs:106-113 | a transaction queued under a timelock with a shorter delay runs as soon as that delay is over when executed through a timelock with a longer one, signed with the second timelock's seeds |
| ExampleTimelock.Initialize | examples/timelock/programs/timelock/src/lib.rs:17-24 | only the delay is written; the nonce keeps its prior value |
| ExampleTimelock.Seeds | examples/timelock/programs/timelock/src/lib.rs:61-65 | execution signs with seeds made of the timelock account's key and its stored nonce |
| ExampleTimelock.InitializedSeedsUseZeroNonce | examples/timelock/programs/timelock/src/lib.rs:17-24 | a timelock created by this version's `initialize` always signs with nonce 0 |
| ExampleTimelock.Execute | examples/timelock/programs/timelock/src/lib.rs:46-74 | same guard order and boundary as the current version; the target gets the queued accounts converted field for field with no rewrite; the handler marks `did_execute` only after a successful invocation |
| ExampleTimelock.Message | examples/timelock/programs/timelock/src/lib.rs:146-152 | each error code has its own message text, and each text belongs to exactly one code |
| ExampleTimelock.MessageIdentifiesCode | examples/timelock/programs/timelock/src/lib.rs:146-152 | the two error messages of this version differ |
| ExampleTimelock.DelayGate | examples/timelock/programs/timelock/src/lib.rs:49-58 | a transaction queued at time `q` reports `NotDelayElapsed` exactly when executed before `q + delay` |
| ExampleTimelock.ExecuteCanReplay | examples/timelock/programs/timelock/src/lib.rs:93-98 | with the transaction account not `mut`, the stored record never changes; after a successful execution, a later one whose target accepts succeeds again |
| Variants.AgreeWhenSignerAlreadyMarked | examples/timelock/programs/timelock/src/lib.rs:60 | if the signer is absent from the queued accounts or already a read-only signer, both versions build the same instruction and return the same result (for a signer that passes the current version's seeds constraint, see Left out) |
| Variants.RewriteDiffersOnUnmarkedSigner | tests/timelock/programs/timelock/src/lib.rs:63-64 | at any position where the signer is queued other than as a read-only signer, the current version hands over a read-only signer and the earlier one the flags as queued, so the instructions differ |
| Variants.MessagesDiffer | examples/timelock/programs/timelock/src/lib.rs:150 | the versions agree on the `NotDelayElapsed` message and differ on the `AlreadyExecuted` one |
| BoundTimelock.Queue | tests/timelock/programs/timelock/src/lib.rs:26-43 | corrected form: queues as the program does and also records the timelock's key |
| BoundTimelock.Execute | tests/timelock/programs/timelock/src/lib.rs:106-113 | corrected form: refuses exactly when the timelock named differs from the recorded one; otherwise succeeds exactly when the program's execution does, and only once the recorded time has come |
| BoundTimelock.DelayCannotBeBypassed | tests/timelock/programs/timelock/src/lib.rs:122-134 | corrected form: with each key naming one timelock account, a transaction runs only through the timelock it was queued under, only after that timelock's delay, and signed with its seeds |

## Left out

- The program-derived address check `seeds = [timelock.key()], bump = timelock.nonce` on `timelock_signer`. Only the current version has it, and the framework runs it before the handler; deriving the address is hashing inside the runtime. The signer key is a plain parameter, and the seeds handed to `invoke` are exposed instead. So the agreement that Variants.AgreeWhenSignerAlreadyMarked states holds in the program only for a signer that passes the current version's check; any other account is refused by the current version and accepted by the earlier one.
- `invoke_signed`: a function parameter that answers success or an opaque program error. `remaining_accounts` are not modelled.
- `Clock::get()`: becomes the parameter `now`. Its `unwrap` failure is not modelled.
- Transactions.Queue uses unbounded integers for `now + delay`, so the `i64` overflow of that sum, whether a wrap or a panic depending on build settings, is not modelled.
- Anchor account allocation, `space`, rent, payer, the system program and Borsh serialisation, including the 1000-byte limit on a transaction account.
- Concurrency: the runtime serialises instructions, so each handler is one atomic step.
- Anchor's numeric error codes. Only the error variants and their messages are modelled.

## Findings

| source | as written | input that shows it | evidently intended | confidence | as-written member | corrected member |
|---|---|---|---|---|---|---|
| examples/timelock/programs/timelock/src/lib.rs:17-24 | `initialize` takes no nonce and never writes `timelock.nonce`, yet `execute_transaction` signs with seeds `[timelock key, [timelock.nonce]]` (lines 61-65), so the nonce is always 0 | a timelock whose signer was found with bump 255: `initialize(10)` stores nonce 0, and execution signs with `(key, 0)` instead of `(key, 255)` | `initialize` stores the signer's nonce, as the current version does at tests/timelock/programs/timelock/src/lib.rs:19-24 | medium, not executed | ExampleTimelock.InitializedSeedsUseZeroNonce | Timelock.InitializedSeedsUseNonce |
| tests/timelock/programs/timelock/src/lib.rs:106-113 | `execute_transaction` accepts any transaction with any timelock. The transaction record does not say which timelock it was queued under (lines 122-134), and `queue_transaction` takes an unconstrained timelock account (line 98) | queue under a timelock with delay 0 at time 1000, then execute at time 1000 through a timelock with delay 86400: the call succeeds, signed as the second timelock's signer | a transaction runs only through the timelock it was queued under, after that timelock's delay | medium, not executed | Timelock.ForeignTimelockBypassesDelay | BoundTimelock.DelayCannotBeBypassed |
| examples/timelock/programs/timelock/src/lib.rs:93-98 | the `transaction` account of `ExecuteTransaction` is not declared `mut`, and Anchor writes a handler's changes back only to `mut` accounts, so `did_execute = true` (line 71) is never stored | execute a due transaction whose target accepts at time 100, then again at time 101: both calls succeed and the target runs twice | the flag is stored, as with `#[account(mut)]` at tests/timelock/programs/timelock/src/lib.rs:111-112, so a second call fails with `AlreadyExecuted` | medium, not executed | ExampleTimelock.ExecuteCanReplay | Timelock.ExecuteOnce |
