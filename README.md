# ExampleNFT, modelled and verified in Dafny

`ExampleNFT` is a collectible token contract (ERC721 with access control and
an emergency pause). Its behaviour is fixed by the Hardhat suite
`test/test_exampleNFT.ts`; the Solidity source is not part of this model, so
what the model does is what those tests pin down. The contract is:

- a token counter and an owner map from token id to address;
- a role registry with `ADMIN_ROLE`, `MINTER_ROLE` and `PAUSER_ROLE`, all
  granted to the deployer;
- the `paused` and `isSaleActive` switches (both off after deployment; the
  test fixture turns the sale on with `flipSaleStatus`);
- the contract's ether balance, in wei;
- the constants: the supply cap of 100 tokens and the mint price of
  0.01 ether = 10^16 wei.

Every transaction either reverts and changes nothing, or performs one atomic
update:

- `safeMint(to)` needs `MINTER_ROLE`, an unpaused contract and fewer than
  100 tokens minted. It increments the counter, gives the new id to `to` and
  emits `MintedNFT(to, id)`.
- `payToMint(to)` needs an unpaused contract, an active sale, fewer than 100
  tokens minted and a value of at least the price. It moves the attached
  value from the caller to the contract and issues a token the same way.
- `flipSaleStatus()` needs `ADMIN_ROLE` and toggles the sale.
- `pause()` and `unpause()` need `PAUSER_ROLE`.
- `withdraw()` sends the contract's whole balance to the caller; the model
  gates it on `ADMIN_ROLE` (a choice, see below).
- `ownerOf(id)` fails for an id that was never minted.
- `hasRole(role, account)` is a lookup.

Files:

- `nft_spec.dfy`, module `NftSpec`: the contract's state as a value. Each
  operation is a function from the old state to the outcome and the new
  state. Its ensures state the gating (success if and only if all the gates
  pass), which error each failing gate gives, that a revert changes nothing,
  and what a success changes.
- `nft_contract.dfy`, module `NftContract`: class `ExampleNFT`, whose fields
  are the contract's storage, with one method per transaction. Each method is
  proved to produce exactly the outcome and the new state of the `NftSpec`
  function. Class `Wallets` holds the ether of the accounts outside the
  contract.
- `nft_runs.dfy`, module `NftRuns`: any sequence of transactions. Lemmas prove
  that, across any run, these hold:
  - ids are issued 1, 2, 3, … in order, each to its event's recipient;
  - no token changes hands;
  - never more than 100 tokens exist.
- `nft_scenarios.dfy`, module `NftScenarios`: the test suite's cases as
  methods on the class, one method per case or group of related cases. The
  repeated-mint cases are loops with invariants. The ensures are the tests'
  expectations; where a method states more (the total collected by
  `PayToMintOverLimit`), the README row says it is an extra fact.

When several gates fail at once, the tests fix only one order: the cap is
checked before the price. At test/test_exampleNFT.ts:210 a `payToMint`
carrying no value after 100 mints reverts with "Mint limit achieved", not
the low-payment error.

Choices where the tests say nothing, modelled this way but not claimed as
tested:

- `payToMint` checks, in this order: the pause, the sale, the cap, the price.
  Apart from cap-before-price, every order in this chain is a choice
  (pause before sale, pause and sale before the cap, pause and sale before
  the price).
- `safeMint` checks, in this order: the role, the pause, the cap. Role
  before pause, role before cap and pause before cap are all choices.
- `pause()` on a paused contract reverts (`EnforcedPause`), and so does
  `unpause()` on an unpaused one (`ExpectedPause`). This is the usual
  `Pausable` guard.
- A payment above the price is kept in full.
- `withdraw` and `flipSaleStatus` do not depend on the pause.
- `withdraw` reverts with `MissingRole(ADMIN)` for a caller without
  `ADMIN_ROLE`, and on an empty balance it succeeds and moves 0. The tests
  only show an admin withdrawing a non-zero balance.

## Model

| member | source | states |
|---|---|---|
| NftSpec.Deployed | test/test_exampleNFT.ts:10-43 | after deployment the deployer, and only the deployer, holds PAUSER, MINTER and ADMIN; no tokens, not paused, sale inactive, zero balance; the state invariant holds |
| NftSpec.SafeMint | test/test_exampleNFT.ts:46-104 | succeeds iff caller is a minter, contract unpaused and fewer than 100 minted; otherwise MissingRole(MINTER), EnforcedPause or MintLimitAchieved and no state change; on success the event is MintedNFT(to, counter+1), that new id is owned by `to` (not the caller) and was unowned before, nothing else changes; keeps the invariant |
| NftSpec.PayToMint | test/test_exampleNFT.ts:107-211 | succeeds iff unpaused, sale active, fewer than 100 minted and value >= 0.01 ether; failures give EnforcedPause, SaleNotActive, MintLimitAchieved (before the price check) or LowPayment and change neither contract nor wallets; on success token counter+1 goes to `to`, event MintedNFT(to, id), contract balance rises by exactly the value, the caller's wallet falls by exactly it, no other wallet changes |
| NftSpec.FlipSaleStatus | test/test_exampleNFT.ts:214-231 | succeeds iff caller is an admin; success toggles isSaleActive and changes nothing else; failure is MissingRole(ADMIN) with no change |
| NftSpec.Pause | test/test_exampleNFT.ts:234-251 | a pauser's pause, when not already paused, sets paused to true and changes nothing else; a non-pauser gets MissingRole(PAUSER) and the switch stays off; a pauser's pause on a paused contract gives EnforcedPause with no change (a choice, see the list above) |
| NftSpec.Unpause | test/test_exampleNFT.ts:254-273 | a pauser's unpause, when paused, sets paused to false and changes nothing else; a non-pauser gets MissingRole(PAUSER) and the switch stays on; a pauser's unpause on an unpaused contract gives ExpectedPause with no change (a choice, see the list above) |
| NftSpec.Withdraw | test/test_exampleNFT.ts:276-287 | succeeds iff caller is an admin (the "only if" half, a non-admin's revert, is a choice, see the list above); success returns and sends the whole balance, 0 when it is empty: contract balance becomes 0, the caller's wallet rises by exactly that amount, no other wallet or storage changes; failure changes nothing |
| NftSpec.OwnerOf | test/test_exampleNFT.ts:159-200 | in a reachable state an owner is returned iff 1 <= id <= tokenCounter, and it is the recorded owner; otherwise InvalidTokenId |
| NftContract.ExampleNFT.constructor | test/test_exampleNFT.ts:10-16 | the new contract's storage is the deployed state and satisfies the invariant |
| NftContract.ExampleNFT.HasRole | test/test_exampleNFT.ts:23-43 | answers whether the account is in the role's member set |
| NftContract.ExampleNFT.OwnerOf | test/test_exampleNFT.ts:52 | returns the ownerOf outcome; an owner exactly for ids 1..tokenCounter |
| NftContract.ExampleNFT.SafeMint | test/test_exampleNFT.ts:46-104 | the outcome and the new storage are those of NftSpec.SafeMint on the old storage; keeps the invariant |
| NftContract.ExampleNFT.PayToMint | test/test_exampleNFT.ts:107-211 | the outcome, the new storage and the new wallets are those of NftSpec.PayToMint on the old ones; keeps the invariant |
| NftContract.ExampleNFT.FlipSaleStatus | test/test_exampleNFT.ts:214-231 | the outcome and the new storage are those of NftSpec.FlipSaleStatus |
| NftContract.ExampleNFT.Pause | test/test_exampleNFT.ts:234-251 | the outcome and the new storage are those of NftSpec.Pause |
| NftContract.ExampleNFT.Unpause | test/test_exampleNFT.ts:254-273 | the outcome and the new storage are those of NftSpec.Unpause |
| NftContract.ExampleNFT.Withdraw | test/test_exampleNFT.ts:276-287 | the outcome, the new storage and the new wallets are those of NftSpec.Withdraw |
| NftRuns.Execute | test/test_exampleNFT.ts:46-74 | one transaction from a reachable state keeps the invariant and emits at most one MintedNFT, whose id is the next one and which the recipient then owns; earlier tokens keep their owners |
| NftRuns.RunIssuesSequentialIds | test/test_exampleNFT.ts:47-53 | over any sequence of transactions the counter grows by the number of MintedNFT events, the k-th event carries id counter+1+k, its recipient owns that id at the end, no earlier token changes owner, and the invariant holds |
| NftRuns.SupplyNeverExceedsCap | test/test_exampleNFT.ts:96-104 | from deployment, whatever transactions are sent by either path, at most 100 tokens are minted and the i-th MintedNFT event carries id i+1 |
| NftScenarios.DeployFixture | test/test_exampleNFT.ts:10-20 | the fixture's contract is the deployed state with the sale switched on |
| NftScenarios.AssignedRoles | test/test_exampleNFT.ts:22-44 | after the fixture the deployer has PAUSER, MINTER and ADMIN |
| NftScenarios.SafeMintToRecipient | test/test_exampleNFT.ts:56-74 | the first safeMint emits MintedNFT(to, 1) and ownerOf(1) is `to` |
| NftScenarios.SafeMintWithoutRole | test/test_exampleNFT.ts:76-85 | a caller without MINTER_ROLE gets MissingRole(MINTER) |
| NftScenarios.SafeMintWhilePaused | test/test_exampleNFT.ts:87-94 | after pause even the minter's safeMint reverts with EnforcedPause |
| NftScenarios.SafeMintOverLimit | test/test_exampleNFT.ts:96-104 | 100 safeMints succeed with ownerOf(i) the recipient after the i-th, and the 101st reverts with MintLimitAchieved |
| NftScenarios.PayToMintByPayers | test/test_exampleNFT.ts:108-125 | each of several distinct payers pays 0.01 ether in turn for a token to itself: that payer's balance falls by exactly the price, the contract's rises by exactly the price, and the i-th token belongs to the i-th payer |
| NftScenarios.PayToMintMovesPrice | test/test_exampleNFT.ts:127-157 | a paid mint of 0.01 ether emits MintedNFT(to, 1), lowers the payer's balance by exactly the price, raises the contract's by exactly the price, and token 1 belongs to `to` |
| NftScenarios.PayToMintRejected | test/test_exampleNFT.ts:159-200 | with the sale off, while paused, or with 0.001 ether, payToMint reverts (SaleNotActive, EnforcedPause, LowPayment) and ownerOf(1) stays InvalidTokenId |
| NftScenarios.PayToMintOverLimit | test/test_exampleNFT.ts:202-211 | 100 paid mints succeed with the buyer owning each id, the contract collects 100 times the price (an extra fact, not asserted by the test), and a 101st carrying no value reverts with MintLimitAchieved, not LowPayment |
| NftScenarios.FlipSaleStatusByRole | test/test_exampleNFT.ts:214-231 | a stranger's flip reverts with MissingRole(ADMIN) and the sale stays active; the admin's flip turns it off |
| NftScenarios.PauseByRole | test/test_exampleNFT.ts:234-273 | strangers' pause and unpause revert with MissingRole(PAUSER) and leave the switch as it was; the pauser's pause sets it and unpause clears it |
| NftScenarios.WithdrawAfterPaidMint | test/test_exampleNFT.ts:276-287 | after one paid mint, the admin's withdraw returns the price; the contract's balance falls by it and the admin's rises by it |

## Left out

- Granting and revoking roles, and `DEFAULT_ADMIN_ROLE`: the tests only look roles up, so the registry never changes after deployment.
- ERC721 transfers, approvals, `safeMint`'s receiver callback and token URIs: the tests exercise none of them. The model therefore has no way for a token to change owner.
- ERC721's refusal to mint to the zero address: the tests never mint to it, and the model has no such guard. `NftSpec.SafeMint` and `NftSpec.PayToMint` succeed for `to == 0` when their gates pass.
- A `withdraw` whose recipient refuses the ether: the tests withdraw only to a plain account, and the rollback is not modelled.
- Exact revert strings and role hashes: errors are the `Error` datatype, one constructor per reason.
- Events: `MintedNFT(to, id)` is the result of a successful mint; there is no log.
- Gas and the ether-as-decimal notation: amounts are natural numbers of wei, and the wallet deltas exclude gas, as the tests' balance checks do.
- Sending more ether than the sender owns: the network refuses such a transaction before it reaches the contract. `PayToMint` requires the sender to cover the value, and `NftRuns.Execute` treats such a transaction as a no-op.
- Address width, and the snapshot and async machinery of the test harness: neither affects the modelled behaviour.
