# A minimal pallet-based ledger state machine, in Dafny

This project models the core of a small single-threaded blockchain runtime
written in Rust. The runtime composes three "pallets", each owning one slice of
state:

- **System**: the current block number and a nonce per account.
- **Balances**: a ledger from account to `u128` balance. A missing entry means zero.
  - `set_balance` overwrites an entry.
  - `transfer` makes a checked subtraction and a checked addition before it
    writes anything.
- **Proof of Existence**: a registry from content to the account that claimed it,
  with `get_claim`, `create_claim` and `revoke_claim`.

`RuntimeCall` is a tagged union over the pallets' own call types. The
runtime's `dispatch` routes a caller and call to the owning pallet and passes
its result back unchanged. `execute_block` does three things:

1. It advances the block number.
2. It rejects a block whose header number differs from the new block number.
3. Otherwise it runs the extrinsics in order. Before each dispatch it bumps the
   caller's nonce. It records each failed dispatch and goes on, without rolling
   anything back.

## Structure

Every pallet is modelled twice, at two levels.

- **Pure step functions** (`TransferStep`, `CreateClaimStep`,
  `RevokeClaimStep`, the `DispatchStep`s, `ApplyExtrinsic`, `Run`,
  `ExecuteBlockStep`) take the pallet's map, or the whole `RuntimeState`, and
  return the new value with the `DispatchResult`. Their contracts state what
  the source promises, and the lemmas beside them prove what holds across
  several steps.
- **A class per pallet** keeps the map as a field. The runtime class keeps the
  three pallets as fields. Its methods follow the source's statements: the early
  returns, the `insert`/`remove` updates, and the `for` loop of
  `execute_block`. Each method is proved to produce exactly the new state and
  result of the matching step function.

Files: `wrappers.dfy` (Option), `types.dfy` (the `u128` balance type and its
checked arithmetic), `support.dfy` (`DispatchResult`, the error texts, header,
extrinsic, block), `system.dfy`, `balances.dfy`, `proof_of_existence.dfy`,
`runtime.dfy`.

Three behaviours of the code are stated as they are, not smoothed over:

- **A transfer to oneself mints `amount`.** The two inserts at out.rs:68-69
  write the same key, and the second overwrites the first. So the balance ends
  at old + amount (`Balances.TransferStep`, `Balances.TransferTotal`). The
  total of all balances is conserved only when caller and receiver differ.
- **A rejected block still advances the block number.** `inc_block_number`
  runs at out.rs:224, before the header check at out.rs:225-227
  (`Runtime.ExecuteBlockStep`). So the block number rises by one for every
  block, not only for every accepted block.
- **out.rs:224 discards whatever `inc_block_number` returns.** The model's
  `IncBlockNumber` returns nothing; the number is read back with
  `BlockNumber()`, as out.rs:225 does.

## Model

| member | source | states |
|---|---|---|
| Types.CheckedSub | out.rs:64-66 | `checked_sub` on `u128`: defined exactly when the subtrahend is at most the balance, and then adding it back gives the balance |
| Types.CheckedAdd | out.rs:67 | `checked_add` on `u128`: defined exactly when the sum fits in 2^128-1, and then subtracting the addend gives the old balance |
| Balances.BalanceOf | out.rs:46-50 | an account with no entry has balance zero; otherwise its stored balance |
| Balances.TransferStep | out.rs:56-71 | insufficient funds gives `Err("Not enough funds.")` and an unchanged ledger; receiver overflow gives `Err("Overflow")` and an unchanged ledger; it succeeds exactly when neither holds; on success with `caller != to` the caller loses and `to` gains `amount`; with `caller == to` the balance ends at old + amount; no other account changes |
| Balances.DispatchStep | out.rs:80-91 | the only call variant is routed to `transfer`, whose ledger and result it returns unchanged |
| Balances.TotalUpdate | out.rs:68-69 | overwriting one entry changes the sum of all balances by new minus old balance |
| Balances.TransferTotal | out.rs:62-70 | a transfer leaves the sum of all balances unchanged, except a successful self-transfer, which raises it by `amount` |
| Balances.Pallet.constructor | out.rs:39-41 | a new pallet has an empty ledger |
| Balances.Pallet.SetBalance | out.rs:42-45 | the entry of `who` becomes `amount`; every other account's balance is unchanged |
| Balances.Pallet.Balance | out.rs:46-50 | reads the balance of `who` from the field, zero when absent |
| Balances.Pallet.Transfer | out.rs:56-71 | the in-place transfer leaves the ledger and result that `TransferStep` gives |
| Balances.Pallet.Dispatch | out.rs:77-91 | the in-place dispatch leaves the ledger and result of the routed transfer |
| ProofOfExistence.GetClaimOf | src/proof_of_existence.rs:26-30 | `None` exactly for unclaimed content, otherwise the stored owner |
| ProofOfExistence.CreateClaimStep | src/proof_of_existence.rs:35-43 | claimed content gives `Err("this content is already claimed")` with the registry unchanged; otherwise `Ok`, and the content is then owned by the caller; no other content changes |
| ProofOfExistence.RevokeClaimStep | src/proof_of_existence.rs:45-55 | unclaimed content gives `Err("claim does not exist")`, a non-owner gets `Err("this content is owned by someone else")`, both with the registry unchanged; the owner gets `Ok` and the content becomes unclaimed; no other content changes |
| ProofOfExistence.DispatchStep | src/proof_of_existence.rs:33-56 | `create_claim{claim}` and `revoke_claim{claim}` are routed to their operations, whose results are returned unchanged |
| ProofOfExistence.RevokeThenReclaim | src/proof_of_existence.rs:48-55 | after the owner revokes, any account's `create_claim` succeeds and makes it the sole owner |
| ProofOfExistence.BasicProofOfExistence | src/proof_of_existence.rs:72-84 | the unit test's sequence: no claim at first, alice claims, bob is refused, alice revokes, bob claims |
| ProofOfExistence.Pallet.constructor | src/proof_of_existence.rs:21-24 | a new pallet has no claim for any content |
| ProofOfExistence.Pallet.GetClaim | src/proof_of_existence.rs:26-30 | reads the owner of the content from the field |
| ProofOfExistence.Pallet.CreateClaim | src/proof_of_existence.rs:37-43 | the check and insert leave the registry and result that `CreateClaimStep` gives |
| ProofOfExistence.Pallet.RevokeClaim | src/proof_of_existence.rs:48-55 | the checks and remove leave the registry and result that `RevokeClaimStep` gives |
| ProofOfExistence.Pallet.Dispatch | src/proof_of_existence.rs:33-34 | the in-place dispatch leaves the registry and result of the routed operation |
| System.NonceOf | out.rs:233 | an account without a nonce has nonce zero |
| System.IncNonceOf | out.rs:233 | the caller's nonce goes up by one and no other nonce changes |
| System.Pallet.constructor | out.rs:218 | block number zero, no nonces |
| System.Pallet.BlockNumber | out.rs:225 | the current block number |
| System.Pallet.IncBlockNumber | out.rs:224 | the block number goes up by one; nonces are unchanged |
| System.Pallet.IncNonce | out.rs:233 | the nonces become `IncNonceOf` of the old nonces; the block number is unchanged |
| Runtime.DispatchStep | out.rs:252-270 | a balances call changes only the ledger and a claim call only the registry; the routed pallet's result is returned unchanged; block number and nonces are untouched |
| Runtime.ApplyExtrinsic | out.rs:233-247 | the caller's nonce is bumped whatever the outcome; then the call is dispatched: result, ledger and registry are those of `DispatchStep`, unaffected by the bump; a failed dispatch leaves ledger and registry as they were |
| Runtime.Run | out.rs:228-248 | the block number is untouched; there is at most one diagnostic per extrinsic; each diagnostic carries the block number and a valid index, in increasing index order |
| Runtime.ExecuteBlockStep | out.rs:223-250 | the block number always goes up by one, even on rejection; a mismatching header gives `Err("block number does not match what is expected")` with nothing else changed and no extrinsic run; a matching header gives `Ok` however many extrinsics fail |
| Runtime.RunNonces | out.rs:228-233 | after the extrinsics, every account's nonce has risen by the number of extrinsics it sent, failed or not |
| Runtime.RunAppend | out.rs:228-248 | running `xs + ys` equals running `ys` after `xs`: a failure neither stops later extrinsics nor undoes earlier ones |
| Runtime.RunLogsFailures | out.rs:234-247 | extrinsic `i` has a diagnostic exactly when its dispatch failed, in the state that the extrinsics before it left |
| Runtime.RunLogsMessages | out.rs:236-245 | every diagnostic names an extrinsic of the block, whose dispatch failed with exactly the diagnostic's error |
| Runtime.RunTotal | out.rs:228-248 | the sum of all balances never falls across a block's extrinsics, and is unchanged when none is a self-transfer |
| Runtime.ExecuteBlockNoncesAndTotal | out.rs:223-249 | a block with a matching header succeeds, each account's nonce rises by its number of extrinsics, and the balance total does not fall |
| Runtime.Runtime.constructor | out.rs:216-222 | fresh pallets: block zero, no nonces, empty ledger, empty registry |
| Runtime.Runtime.Dispatch | out.rs:255-269 | the in-place dispatch leaves the state and result of `DispatchStep`, changing only the routed pallet |
| Runtime.Runtime.ExecuteBlock | out.rs:223-250 | the in-place block loop leaves the state, result and diagnostics of `ExecuteBlockStep` |

## Left out

- The `main` demo functions (out.rs:271-342, src/main.rs:55-121) only build sample blocks and print the runtime.
- The derived `Debug` impls only format values for printing.
- The per-extrinsic `eprint` is I/O. The model returns each message's content (block number, extrinsic index, error) as an `ExtrinsicError` in the `log` out-parameter of `ExecuteBlock`.
- The `#[macros::runtime]` and `#[macros::call]` macros are not visible. Their output is written by hand: the `Call` datatypes, `RuntimeCall` and the routing.
- The `num` trait bounds (`Zero`, `CheckedAdd`, `CheckedSub`) and the pallets' generic `Config` parameters are not modelled. The pallets are instantiated with the runtime's types: `String` accounts, `u128` balances and string content.
- src/system.rs and src/support.rs are not part of this model (the modules are empty at out.rs:166-167). The system pallet is modelled by the contract its callers rely on. Block numbers and nonces are unbounded naturals, so any `u32` overflow in it is not captured.
- Rust ownership (the moves and clones of accounts and calls) has no observable effect and is not modelled.
- Both copies of the Proof-of-Existence pallet (out.rs:94-164 and src/proof_of_existence.rs) are the same code. The model cites the hand-written file.
- The misspelt `RevokeClaim` call at out.rs:323 belongs to the demo. The model uses `revoke_claim`.
