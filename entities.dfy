/**
 The entities of the balance indexer: balances, the chain's account data, the stored Account
 entity (as a row of the store and as the in-memory object the handlers mutate) and the
 audit records each event handler saves.
 */
module Entities {

  datatype Option<T> = None | Some(value: T)

  /** Free, reserved and total balance, as held by an account or by one side of an audit record. */
  datatype Balances = Balances(free: int, reserve: int, total: int)

  /** The ledger's intended relation between the three balances. */
  predicate Consistent(b: Balances)
  {
    b.total == b.free + b.reserve
  }

  /** What the chain's account query yields for an address. */
  datatype ChainAccount = ChainAccount(free: int, reserved: int)

  /** The chain's account query at the block being indexed; None when it returns no data. */
  type ChainQuery = string -> Option<ChainAccount>

  /** A stored Account entity; the store keys it by address. */
  datatype AccountRow = AccountRow(balances: Balances, snapshotAtCurrentBlock: int, aid: int)

  /** An Account entity loaded into memory; handlers assign its fields and then save it. */
  class Account {
    const id: string
    var freeBalance: int
    var reserveBalance: int
    var totalBalance: int
    var snapshotAtCurrentBlock: int
    var aid: int

    /** A new entity for `id` whose fields the caller assigns before saving it. */
    constructor (id: string)
      ensures this.id == id
      ensures Row() == AccountRow(Balances(0, 0, 0), 0, 0)
    {
      this.id := id;
      freeBalance, reserveBalance, totalBalance := 0, 0, 0;
      snapshotAtCurrentBlock, aid := 0, 0;
    }

    /** An entity read back from the store: a copy of the stored row. */
    constructor FromRow(id: string, row: AccountRow)
      ensures this.id == id && Row() == row
    {
      this.id := id;
      freeBalance := row.balances.free;
      reserveBalance := row.balances.reserve;
      totalBalance := row.balances.total;
      snapshotAtCurrentBlock := row.snapshotAtCurrentBlock;
      aid := row.aid;
    }

    function CurrentBalances(): Balances
      reads this
    {
      Balances(freeBalance, reserveBalance, totalBalance)
    }

    /** What saving this entity writes to the store. */
    function Row(): AccountRow
      reads this
    {
      AccountRow(CurrentBalances(), snapshotAtCurrentBlock, aid)
    }
  }

  /** The entity tables audit records go to; each keys its records by id. */
  datatype EventKind =
    | Transfer | BalanceSet | Deposit | Reserved | Unreserved | Withdraw | Slash | ReservRepatriated

  /**
   The audit record of one event. `before` and `after` are the `_old` and new balance fields of
   the source's entities. A Transfer records only the post-event balances of its two sides; a
   Slash record never assigns its new free and reserved balance, so only its new total is kept.
   */
  datatype EventRecord =
    | TransferRecord(id: string, blockNumber: nat, fromId: string, toId: string,
                     balanceChange: int, aid: int, fromAfter: Balances, toAfter: Balances)
    | BalanceSetRecord(id: string, accountId: string, blockNumber: nat, aid: int,
                       balanceChange: int, before: Balances, after: Balances)
    | DepositRecord(id: string, accountId: string, blockNumber: nat, aid: int,
                    balanceChange: int, before: Balances, after: Balances)
    | ReservedRecord(id: string, accountId: string, blockNumber: nat, aid: int,
                     balanceChange: int, before: Balances, after: Balances)
    | UnreservedRecord(id: string, accountId: string, blockNumber: nat, aid: int,
                       balanceChange: int, before: Balances, after: Balances)
    | WithdrawRecord(id: string, accountId: string, blockNumber: nat, aid: int,
                     balanceChange: int, before: Balances, after: Balances)
    | SlashRecord(id: string, accountId: string, blockNumber: nat, aid: int,
                  balanceChange: int, before: Balances, totalAfter: int)
    | ReservRepatriatedRecord(id: string, fromId: string, toId: string, blockNumber: nat,
                              aid: int, balanceChange: int, fromBefore: Balances,
                              fromAfter: Balances, toBefore: Balances, toAfter: Balances)

  /** The table a record is saved to. */
  function KindOf(r: EventRecord): EventKind
  {
    match r
    case TransferRecord(_, _, _, _, _, _, _, _) => Transfer
    case BalanceSetRecord(_, _, _, _, _, _, _) => BalanceSet
    case DepositRecord(_, _, _, _, _, _, _) => Deposit
    case ReservedRecord(_, _, _, _, _, _, _) => Reserved
    case UnreservedRecord(_, _, _, _, _, _, _) => Unreserved
    case WithdrawRecord(_, _, _, _, _, _, _) => Withdraw
    case SlashRecord(_, _, _, _, _, _, _) => Slash
    case ReservRepatriatedRecord(_, _, _, _, _, _, _, _, _, _) => ReservRepatriated
  }
}
