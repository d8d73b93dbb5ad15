# Balance handler of a Polkadot balance indexer, in Dafny

This project models `src/handlers/balance-handler.ts`, the event handler of a SubQuery-style
indexer that keeps one `Account` entity per Polkadot address. For each balance event it also
writes an audit record.

## What is modelled

- **The store**, as the class `BalanceHandler.Indexer`:
  - `accounts`: Account rows by address;
  - `generator`: the id generator record;
  - `records`: audit records, keyed by table and id.
- **Reading an account.** `Account.get` yields a fresh `Entities.Account` object copied from the
  stored row. So a handler whose two parties are the same address works on two independent
  copies, and the later `save` wins. Writes happen in the source's order.
- **`getID`.** It yields 0 the first time and one more than the stored value after that.
- **`getAccountInfo` and `createNewAccount`.** A new account takes the chain's free and reserved
  balance, and the current block as its snapshot block. When the chain has no data it gets zero
  balances and snapshot -1.
- **The eight handlers**: Transfer, BalanceSet, Deposit, Reserved, Unreserved, Withdraw, Slash and
  ReserveRepatriated.
  - Each handler resolves its account(s), creating missing ones, then takes the next id.
  - Then it applies the two-branch snapshot policy to each account side:
    - *forward branch* (the account's snapshot block differs from the event's block): the
      movement is applied and written back;
    - *same-block branch* (the blocks are equal): the account is left alone, and the record's old
      balances are rebuilt by inverting the movement.
  - It saves the account(s) and then the record, whose id is `<block>-<index>`.

The pure rules live in `BalanceRules`:
- a `Delta` per kind of movement, `Forward` for applying it and `Backward` for inverting it;
- `Settle` for the policy;
- `SettleBalanceSet` and `SettleSlash` for the two handlers whose effect is not a movement.

Each handler method's postcondition ties the returned record and the new store to those
functions and to `Resolve`, the pure account lookup or creation. Lemmas then state what the
source promises about them.

Behaviours of the code that the model keeps:
- An account created without chain data gets snapshot -1, not the current block.
- A Transfer record keeps only the post-event balances of both sides.
- BalanceSet records `balance1 + balance2` as its `balanceChange`. It takes the account's current
  balances as the old ones, even in the same-block branch.
- A forward Slash changes only the total, to free + reserved - amount. This breaks
  total == free + reserved.
- A forward ReserveRepatriated lowers the sender's reserved balance, and its total is
  recomputed as free + reserved, so for a sender whose total is free + reserved, its total falls
  by the amount.
- When both parties of a Transfer are the same address and the event lies outside the
  account's snapshot block, only the debit survives. For ReserveRepatriated under the same
  conditions only the receiver's credit survives. Inside the snapshot block neither movement
  is applied.
- A second forward Slash discards the first: each sets the total to free + reserved minus its
  own amount.

## Model

| member | source | states |
|---|---|---|
| BalanceHandler.Indexer.GetID | src/handlers/balance-handler.ts:19-34 | the id is 0 without a generator record, otherwise the stored value + 1; the new value is stored, and it exceeds the last id handed out |
| IdGenerator.IssuedAt | src/handlers/balance-handler.ts:19-34 | the k-th of successive getID results is the first one plus k |
| IdGenerator.IssuedStrictlyIncreasing | src/handlers/balance-handler.ts:19-34 | successive ids are strictly increasing, hence distinct, and all above the stored value |
| IdGenerator.IssuedFromScratch | src/handlers/balance-handler.ts:20-25 | starting without a generator record the ids are 0, 1, 2, ... |
| BalanceHandler.GetAccountInfo | src/handlers/balance-handler.ts:37-63 | with chain data free and reserved are copied and the snapshot is the block; without, all three balances are 0 and the snapshot is -1; the total is free + reserved; the snapshot equals the block exactly when the chain has data |
| BalanceHandler.Indexer.CreateNewAccount | src/handlers/balance-handler.ts:65-82 | the new account holds the account info's balances and snapshot under the next id, which is stored as the generator's value, and is saved under its address |
| BalanceHandler.Indexer.GetAccount | src/handlers/balance-handler.ts:101 | null exactly when no account is stored for the address, otherwise a fresh copy of the stored row |
| BalanceHandler.Indexer.Save | src/handlers/balance-handler.ts:139-140 | the account's row is stored under its id, replacing any earlier row |
| BalanceHandler.Indexer.SaveRecord | src/handlers/balance-handler.ts:141 | the record is stored in its own table under its id |
| BalanceHandler.Indexer.ResolveAccount | src/handlers/balance-handler.ts:101-110 | the loaded account, the accounts and the generator afterwards are those of `Resolve` |
| BalanceHandler.ResolveFindsOrCreates | src/handlers/balance-handler.ts:101-110 | a stored account is returned unchanged and nothing else changes; a missing one is created consistent, under the next id, with snapshot = block exactly when the chain has data, and zero balances with snapshot -1 without data |
| BalanceHandler.ResolveIdempotent | src/handlers/balance-handler.ts:106-110 | resolving an address a second time returns the same account and changes nothing, whatever the chain would answer then |
| RecordIds.NatToStringDigits | src/handlers/balance-handler.ts:114 | a block number or index renders as a non-empty string of decimal digits |
| RecordIds.RecordIdRoundTrip | src/handlers/balance-handler.ts:114 | the record id `<block>-<index>` parses back to the block number and the index |
| RecordIds.RecordIdInjective | src/handlers/balance-handler.ts:114 | two record ids are equal only when their block numbers and indices are |
| BalanceRules.ForwardAppliesMovement | src/handlers/balance-handler.ts:233-249 | a forward movement sets the total to the old free + reserved plus its net effect, so total == free + reserved afterwards, and changes free and reserved by exactly the event's amounts (Deposit +free, Withdraw -free, Reserved free to reserved, Unreserved reserved to free, repatriation -reserved on the sender and +free or +reserved on the receiver) |
| BalanceRules.ForwardUndoesBackward | src/handlers/balance-handler.ts:219-232 | the rebuilt old balances are consistent, and applying the movement to them gives back the current free and reserved balance with the total recomputed |
| BalanceRules.BackwardUndoesForward | src/handlers/balance-handler.ts:283-309 | for consistent balances, inverting a movement after applying it gives them back |
| BalanceRules.SettleSameBlock | src/handlers/balance-handler.ts:404-417 | same-block branch: the account is untouched, the record's new balances are the account's, and moving the rebuilt old balances forward gives them back |
| BalanceRules.SettleForward | src/handlers/balance-handler.ts:418-434 | forward branch: the record's old balances are the account's, and the account takes the record's new balances, which are consistent and whose total is the old free + reserved plus the net effect |
| BalanceRules.SettleRecordsMovement | src/handlers/balance-handler.ts:342-369 | in either branch, for a consistent account, the record's new balances are its old ones moved by the event and the totals differ by exactly the net effect |
| BalanceRules.SettleBalanceSetOverwrites | src/handlers/balance-handler.ts:168-187 | the record's old balances are the account's current ones and its new ones are (b1, b2, b1 + b2); the account takes them only outside its snapshot block |
| BalanceRules.SettleSlashMovesOnlyTotal | src/handlers/balance-handler.ts:469-490 | free and reserved never change; in the snapshot block the account is untouched and the recorded new total is its total; outside it the account takes the recorded new total, free + reserved - amount, whatever its stored total; in the snapshot block the recorded old total is free + reserved + amount; for a consistent account the recorded totals differ by exactly the amount |
| BalanceRules.ForwardSlashBreaksConsistency | src/handlers/balance-handler.ts:480-489 | a forward Slash of a non-zero amount leaves total != free + reserved |
| BalanceRules.SecondSlashDiscardsFirst | src/handlers/balance-handler.ts:480-489 | after two forward Slashes the total is free + reserved minus the second amount only: the first slash no longer shows |
| BalanceRules.SlashForgottenByNextMovement | src/handlers/balance-handler.ts:480-489 | after a forward Slash, the next forward movement recomputes the total from free and reserved, so the slash no longer shows |
| BalanceRules.ReceiverGainsAmount | src/handlers/balance-handler.ts:596-604 | applied to any balances, the receiver's movement raises the total to free + reserved + amount; for status Free it adds the amount to free and leaves reserved alone, for status Reserved the reverse |
| BalanceRules.TransferConservesFree | src/handlers/balance-handler.ts:123-130 | with both sides outside their snapshot block, the debit and the credit keep the sum of free balances |
| BalanceRules.RepatriationMovesTotal | src/handlers/balance-handler.ts:550-609 | with both sides outside their snapshot block, the consistent sender's total falls by the amount and the consistent receiver's total rises by it |
| BalanceRules.ReplayAtSnapshotBlock | src/handlers/balance-handler.ts:219-232 | any sequence of events in the account's own snapshot block leaves the account unchanged |
| BalanceRules.ReplayKeepsConsistent | src/handlers/balance-handler.ts:233-249 | without Slash events, total == free + reserved survives any sequence of events |
| BalanceRules.ReplayForwardTotal | src/handlers/balance-handler.ts:233-249 | forward movements change a consistent account's total by exactly the sum of their net effects |
| BalanceHandler.SettleAccount | src/handlers/balance-handler.ts:219-249 | the loaded account's balances and the record's old and new balances are those of `Settle`; the snapshot block and aid are unchanged |
| BalanceHandler.SetAccount | src/handlers/balance-handler.ts:168-187 | the loaded account and the record follow `SettleBalanceSet`; snapshot block and aid unchanged |
| BalanceHandler.SlashAccount | src/handlers/balance-handler.ts:469-490 | the loaded account and the record follow `SettleSlash`; snapshot block and aid unchanged |
| BalanceHandler.Indexer.HandleTransfer | src/handlers/balance-handler.ts:91-142 | the record holds the id `<block>-<index>`, the next id after resolving both sides and only the post-event balances of both sides; the accounts are `TransferredAccounts` (to saved, then from); the record is stored; a newly created side has a smaller aid than the record |
| BalanceHandler.TransferKeepsFreeSum | src/handlers/balance-handler.ts:123-140 | between distinct accounts both outside their snapshot block, the sum of free balances is kept |
| BalanceHandler.SelfTransferKeepsOnlyDebit | src/handlers/balance-handler.ts:101-140 | a transfer from an account to itself outside its snapshot block leaves exactly the debited row: free - amount, reserved unchanged, total = free + reserved - amount; the save of the `from` copy overwrites the credit |
| BalanceHandler.Indexer.HandleBalanceSet | src/handlers/balance-handler.ts:145-190 | record and new account as `SettleBalanceSet` states, with balanceChange = b1 + b2; the record is stored; a newly created account has a smaller aid than the record |
| BalanceHandler.Indexer.HandleDeposit | src/handlers/balance-handler.ts:193-254 | record and new account as `Settle` states for free += amount; the record is stored; a newly created account has a smaller aid than the record |
| BalanceHandler.Indexer.HandleReserved | src/handlers/balance-handler.ts:257-314 | record and new account as `Settle` states for free -= amount, reserved += amount; the record is stored; a newly created account has a smaller aid than the record |
| BalanceHandler.Indexer.HandleUnreserved | src/handlers/balance-handler.ts:317-375 | record and new account as `Settle` states for free += amount, reserved -= amount; the record is stored; a newly created account has a smaller aid than the record |
| BalanceHandler.Indexer.HandleWithdraw | src/handlers/balance-handler.ts:379-438 | record and new account as `Settle` states for free -= amount; the record is stored; a newly created account has a smaller aid than the record |
| BalanceHandler.Indexer.HandleSlash | src/handlers/balance-handler.ts:444-494 | record (old balances and new total only) and new account as `SettleSlash` states; the record is stored; a newly created account has a smaller aid than the record |
| BalanceHandler.Indexer.HandleReservRepatriated | src/handlers/balance-handler.ts:505-614 | the record holds both sides' old and new balances as `Settle` states for each side (sender reserved -= amount; receiver free or reserved += amount by status); the accounts are `RepatriatedAccounts` (sender saved, then receiver); the record is stored; a newly created side has a smaller aid than the record |
| BalanceHandler.RepatriationMovesTotalBetween | src/handlers/balance-handler.ts:538-612 | between distinct consistent accounts both outside their snapshot block, the sender's stored total falls by the amount and the receiver's rises by it |
| BalanceHandler.SelfRepatriationKeepsOnlyCredit | src/handlers/balance-handler.ts:516-612 | a repatriation from an account to itself outside its snapshot block leaves only the receiver's credit: the receiver copy's save overwrites the sender's |

## Left out

- Event decoding (`event.data.toJSON()`, the block header) is not modelled. Each handler takes
  the decoded fields, the block number and the event index as `nat` parameters.
- The receiver status of ReserveRepatriated is taken as the chain's `BalanceStatus` (`Free` or
  `Reserved`). The source compares the decoded string with `"Free"` and treats every other value
  as reserved, which gives the same result for both values the chain emits.
- The event index is rendered in decimal in the record id, like the block number. The exact
  rendering of `event.index` by the chain library is not part of this model. That index
  identifies the kind of event rather than its position in the block, so the source's id is not
  unique per event: two events of one kind in one block share an id, and the later record
  overwrites the earlier one, as `BalanceHandler.Indexer.SaveRecord`'s map update does.
- The chain query `api.query.system.account` is a parameter: a total function from address to
  optional (free, reserved) at the block being indexed.
- Persistence (`Account.get`, `save`, `IDGenerator.get/save`) is modelled as in-memory maps and an
  optional counter in the `Indexer` object. Only the write order is kept.
- `async`/`await` is not modelled: processing is sequential, so every call is an ordinary step.
- Failures are not modelled: every chain query and store call succeeds. In the source a failing
  call aborts the handler midway, and the writes made before it stay in place: a created account,
  an advanced id generator, or the first of two account saves.
- Logging (`logger.info`), the unused `timestamp` and the `AccountWrapper` class are left out; they
  have no behaviour.
- `Entities.Account.constructor` sets every field to 0. These stand for fields the source leaves
  undefined until `createNewAccount` assigns them, so the zeros are never observed.
- A record's fields are stored whole, as `Balances` values; the generated entity classes with
  their field-by-field setters are not modelled.
- No invariant that every stored aid came from the generator is kept on the store, because the
  source does not maintain one. The handlers state only that an account created while handling
  an event has a smaller aid than that event's record.
