# Unicorns burnable token ledger

A Dafny model of the Unicorns (UNIC) token as its burn test suites observe it. The token is an
EIP-20 ledger holding balances, allowances and a total supply. Deployment mints
40,000,000 tokens of 18 decimals to an initial holder. A single immutable owner (the deployer) may
call `burn(target, amount)` in one of two modes:

- **self-burn** (`target` is the owner): the owner's balance and the supply drop by `amount`;
- **delegated burn** (`target` is someone else): the allowance `target` granted the owner is
  consumed first, then `target`'s balance and the supply drop by `amount`.

Both modes log an EIP-20 `Transfer(target, 0, amount)`. A delegated burn also logs
`Approval(target, owner, remaining allowance)`. A call reverts for any of four reasons: the caller
is not the owner, the target is the zero address, the allowance is too small, or the balance is
too small. A revert undoes the whole call, as on the EVM.

Files:

- `sums.dfy` (module `Sums`): the sum of a map's values, with the lemmas used to prove that the
  supply always equals the sum of the balances.
- `ledger.dfy` (module `Ledger`): the ledger as a state machine. Each public call (`TransferTo`,
  `Approve`, `Burn`) is a function from a `State` to `Ok(Receipt(post, logs))` or `Err(error)`.
  The module also holds the invariant `Good` (supply equals the sum of balances, the zero address
  holds nothing, the owner is a real account) and lemmas showing that every call, and every
  sequence of calls (`Run`), keeps that invariant.
- `token.dfy` (module `Token`): class `Unicorns`, the deployed token. Its fields are updated in
  place by `Transfer`, `Approve` and `Burn`. Each method is proved to produce exactly the receipt
  and new state of the matching `Ledger` function and to keep the invariant.
- `scenarios.dfy` (module `Scenarios`): client methods that replay each test case on a fresh
  `Unicorns` object. Each one proves what the test asserts, generalised over the accounts and the
  amount.

The caller of a transaction (`msg.sender`) is an explicit parameter. The tests' revert reasons
appear in `Ledger.Reason`.

## Model

| member | source | states |
|---|---|---|
| `Ledger.Deploy` | test/UnicornsBurnTest.js:14-18 | Deployment with a real initial holder gives that holder, and only it, the whole 40,000,000 × 10^18 supply. The deployer becomes the owner, no allowances exist and the invariant holds. Deployment succeeds exactly when the initial holder is a real account; the revert on a zero initial holder is an assumption of the model, not shown by the tests. |
| `Ledger.Debit` | test/UnicornsBurnTest.js:40-48 | The internal debit lowers one account's balance and the supply by the same amount. Every other balance, the allowances and the owner stay as they were. |
| `Ledger.Consume` | test/ERC20Burnable.behavior.js:71-73 | The internal consume lowers one (holder, spender) allowance by exactly the amount. Every other allowance, the balances and the supply stay as they were. |
| `Ledger.TransferTo` | test/ERC20Burnable.behavior.js:61 | `transfer` succeeds exactly when both parties are real accounts (the zero-address revert is an assumption of the model) and the sender's balance covers the amount. It moves the amount from sender to recipient, leaves the supply, the allowances and third parties alone, and logs one `Transfer`. |
| `Ledger.Approve` | test/ERC20Burnable.behavior.js:62 | `approve` overwrites the caller's allowance for the spender with the amount. It touches no other allowance, no balance and not the supply, logs `Approval`. It succeeds exactly when both parties are real accounts; the zero-address revert is an assumption of the model, not shown by the tests. |
| `Ledger.Burn` | test/ERC20Burnable.behavior.js:7-116 | Each gate on its own makes `burn` revert: a caller other than the owner gives `Unauthorized`, and the zero target gives `ZeroAddress`; when both fail, the error is one of the two. A self-burn above the balance gives `InsufficientBalance`. A delegated burn above the allowance gives `InsufficientAllowance`, even when the balance would cover it. A delegated burn within the allowance but above the balance gives `InsufficientBalance`. The burn succeeds exactly when no check fails. On success, the target's balance and the supply both drop by the amount and nothing else changes, except that a delegated burn lowers `allowance(target, owner)` by the amount. A self-burn leaves every allowance untouched. The logs are `[Transfer(target, 0, amount)]` for a self-burn and `[Approval(target, owner, allowance − amount), Transfer(target, 0, amount)]` for a delegated burn. |
| `Ledger.ZeroAmountBurn` | test/ERC20Burnable.behavior.js:9-11 | The owner burning 0 from any real account succeeds, changes no balance, allowance or supply, and still logs `Transfer(target, 0, 0)`. |
| `Ledger.BurnKeepsGood` | test/UnicornsBurnTest.js:40-48 | After any burn, successful or reverted, the supply still equals the sum of all balances, the zero address holds nothing and the owner is unchanged. |
| `Ledger.TransferKeepsGood` | test/ERC20Burnable.behavior.js:61 | A transfer, successful or not, keeps the supply equal to the sum of balances and keeps the zero address empty. |
| `Ledger.ApproveKeepsGood` | test/ERC20Burnable.behavior.js:62 | An approval, successful or not, keeps the ledger invariant. |
| `Ledger.BalanceBelowSupply` | test/UnicornsBurnTest.js:27-31 | No balance exceeds the supply. So burning more than the supply always exceeds the holder's balance, and no credit can grow beyond the 256-bit supply minted at deployment. |
| `Ledger.Step` | test/ERC20Burnable.behavior.js:60-64 | A single call, as one step of a test's setup chain, never changes the owner. |
| `Ledger.StepKeepsGood` | test/ERC20Burnable.behavior.js:60-64 | Any single call keeps the ledger invariant. |
| `Ledger.Run` | test/ERC20Burnable.behavior.js:60-64 | After any sequence of transfers, approvals and burns, including reverted ones, the supply equals the sum of balances, the zero address holds nothing and the owner is the one set at deployment. |
| `Ledger.RunNeverRaisesSupply` | test/UnicornsBurnTest.js:40-43 | No sequence of calls raises the supply. |
| `Token.Unicorns.constructor` | test/UnicornsBurnTest.js:16-18 | A new token holds exactly the state `Ledger.Deploy` gives and satisfies the invariant. |
| `Token.Unicorns.TotalSupply` | test/UnicornsBurnTest.js:42 | `totalSupply()` returns the sum of all balances. |
| `Token.Unicorns.BalanceOf` | test/UnicornsBurnTest.js:47 | `balanceOf` returns the mapped balance, 0 for an account never credited. It never exceeds the supply. |
| `Token.Unicorns.Allowance` | test/ERC20Burnable.behavior.js:72 | `allowance` returns the mapped allowance, 0 for a pair never approved. |
| `Token.Unicorns.Transfer` | test/ERC20Burnable.behavior.js:61 | The in-place `transfer` returns the logs or revert reason of `Ledger.TransferTo` and leaves exactly the state it gives (the old state on a revert). It keeps the invariant. |
| `Token.Unicorns.Approve` | test/ERC20Burnable.behavior.js:62 | The in-place `approve` returns the logs or revert reason of `Ledger.Approve` and leaves exactly the state it gives. It keeps the invariant. |
| `Token.Unicorns.Burn` | test/UnicornsBurnTest.js:36 | The in-place `burn` returns the logs or revert reason of `Ledger.Burn` and leaves exactly the state it gives. A revert leaves every field unchanged. It keeps the invariant. |
| `Scenarios.ReasonsDistinct` | test/UnicornsBurnTest.js:22-23 | The four revert reasons are pairwise different, so each failure can be told from the others by its message. |
| `Scenarios.DeployToHolder` | test/UnicornsBurnTest.js:14-17 | After deployment, `totalSupply()` and `balanceOf(initialHolder)` are both 40000000000000000000000000. |
| `Scenarios.BurnFromZeroAddress` | test/UnicornsBurnTest.js:21-24 | `burn(0, 1)` by the owner reverts with "Unicorns: burn from the zero address" and leaves the supply intact. |
| `Scenarios.BurnBeyondSupply` | test/UnicornsBurnTest.js:27-31 | Burning `initialSupply + 1` from the holder reverts with "Unicorns: burn amount exceeds balance" and leaves supply and balance intact. |
| `Scenarios.SelfBurn` | test/ERC20Burnable.behavior.js:17-32 | A self-burn of any amount up to the balance, 0 included, lowers the owner's balance and the supply by that amount and logs `Transfer(owner, 0, amount)`. |
| `Scenarios.BurnEntireAndAllButOne` | test/UnicornsBurnTest.js:61-62 | Burning the whole supply leaves balance and supply at 0. Burning all but one token leaves 1 of each. Each burn logs `Transfer(holder, 0, amount)`. |
| `Scenarios.BurnByNonOwner` | test/UnicornsBurnTest.js:69-75 | A burn called by any other account reverts with "Unicorns: Only Owner can perform this task", for any amount, and leaves supply and balance intact. |
| `Scenarios.BurnFrom` | test/ERC20Burnable.behavior.js:57-89 | The test sets things up in three steps: transfer `3·amount` to the burner, the burner approves the owner for `3·amount`, the owner burns `amount`. After that, the burner's balance and its allowance to the owner are both `2·amount`, and the supply is lower by `amount`. The logs are the remaining `Approval` and the `Transfer` to 0. |
| `Scenarios.BurnFromBeyondBalance` | test/ERC20Burnable.behavior.js:93-102 | A delegated burn that the allowance covers but the balance does not reverts with "Unicorns: burn amount exceeds balance". Balance and allowance stay unchanged. |
| `Scenarios.BurnFromBeyondAllowance` | test/ERC20Burnable.behavior.js:105-114 | A delegated burn one token above the allowance reverts with "Unicorns: Check for approved token count failed", even though the balance covers it. Nothing changes. |

## Left out

- The Solidity contract itself is not part of this model. The model follows what the two test
  files assert about it. Where they leave behaviour open, the model checks in this order: owner
  gate, zero-address gate, allowance, balance.
- Ledger.Burn: the order of the owner gate and the zero-address gate is not pinned by the tests.
  The model checks the owner first, and the contract only states that each gate alone makes the
  call revert.
- Ledger.Burn: when a delegated burn exceeds both allowance and balance, the model reports
  `InsufficientAllowance`, because it checks the allowance first. The tests only pin the cases
  where exactly one of the two falls short.
- A delegated burn that consumes the allowance and then fails the balance check keeps the whole
  call atomic: the allowance is restored. This is the EVM revert semantics. A variant in which the
  consumed allowance survives the failed debit is not modelled.
- Ledger.Burn: the order of the two logs of a delegated burn (`Approval` before `Transfer`)
  follows the consume-then-debit order. The tests look the events up regardless of order.
- Ledger.TransferTo: the tests use `transfer` only as setup with sufficient balances. Its revert
  on an insufficient balance is what EIP-20 asks for. Its revert on a zero sender or recipient is
  an assumption of the model: EIP-20 has no such rule, and no test shows it; it follows the common
  OpenZeppelin ERC20 check and keeps the zero address from ever holding tokens. Both reverts share
  the `ZeroAddress`/`InsufficientBalance` kinds with `burn`. `Reason` gives the reasons `burn`
  reports, not the transfer's own messages, which the tests never show.
- Ledger.Approve: its revert when the caller or the spender is the zero address is an assumption
  of the model, taken from the common OpenZeppelin ERC20 check. EIP-20 has no such rule and the
  tests never approve with a zero address.
- `transferFrom`, `increaseAllowance`/`decreaseAllowance`, `name`, `symbol` and `decimals` are not
  exercised by these tests and are not modelled.
- The deployer is the owner, and the initial holder is a constructor argument. The tests only pin
  the case where both are `accounts[0]`. `Token.Unicorns.constructor` requires a real initial
  holder, because a deployment that reverts yields no object.
- Ledger.Deploy: its revert on a zero initial holder is an assumption of the model, taken from the
  common OpenZeppelin mint check. The tests always deploy to a real account.
- Ledger.Burn: requires the ledger invariant `Good`. Every state the token can reach satisfies it
  (`Ledger.Run`), and it is what guarantees that the supply covers any balance being debited.
- Amounts are unbounded naturals rather than `uint256`. Burns only subtract, and
  `Ledger.BalanceBelowSupply` shows that no balance, and so no transfer credit, can exceed the
  supply minted at deployment, which fits in 256 bits.
- Gas, deployment plumbing, RPC transport, the test framework's harness and event delivery are
  not modelled. Events are returned as a list of records, and reverts as an error result with the
  state unchanged.
