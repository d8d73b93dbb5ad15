/**
 The balance handler: lazy account creation from a chain snapshot, the id counter, and the
 eight event handlers, each of which resolves its accounts, takes the next id, applies the
 snapshot policy of BalanceRules and saves the account(s) and then its audit record.

 The store is an `Indexer` object: Account rows by address, the id generator record, and
 audit records by table and id. Reading an Account yields a fresh object copied from its row,
 so a handler whose two parties are the same address works on two independent copies and the
 later save wins.
 */
module BalanceHandler {
  import opened Entities
  import opened BalanceRules
  import opened IdGenerator
  import opened RecordIds

  /** What getAccountInfo builds from the chain query's result. */
  datatype AccountInfo = AccountInfo(address: string, free: int, reserved: int, total: int,
                                     snapshotAtCurrentBlock: int)

  /**
   The account info for `address` at `blockNumber`: the chain's balances with the block as
   snapshot, or zero balances with snapshot -1 when the chain has no data.
   */
  function GetAccountInfo(address: string, blockNumber: nat, raw: Option<ChainAccount>): (info: AccountInfo)
    ensures info.address == address && info.total == info.free + info.reserved
    ensures raw.Some? ==> info.free == raw.value.free && info.reserved == raw.value.reserved
    ensures raw.None? ==> info.free == 0 && info.reserved == 0 && info.snapshotAtCurrentBlock == -1
    ensures info.snapshotAtCurrentBlock == blockNumber <==> raw.Some?
  {
    match raw
    case Some(data) => AccountInfo(address, data.free, data.reserved, data.free + data.reserved, blockNumber)
    case None => AccountInfo(address, 0, 0, 0, -1)
  }

  /** The row createNewAccount saves for `info` under id `aid`. */
  function NewAccountRow(info: AccountInfo, aid: int): AccountRow
  {
    AccountRow(Balances(info.free, info.reserved, info.total), info.snapshotAtCurrentBlock, aid)
  }

  /** The account a handler works on, and the store's accounts and generator afterwards. */
  datatype Resolution = Resolution(row: AccountRow, accounts: map<string, AccountRow>, generator: Option<int>)

  /**
   Resolving an address: an existing account is returned as stored and nothing changes;
   otherwise a new account is created from the chain's snapshot under the next id and saved.
   */
  function Resolve(accounts: map<string, AccountRow>, generator: Option<int>, address: string,
                   blockNumber: nat, query: ChainQuery): Resolution
  {
    if address in accounts then
      Resolution(accounts[address], accounts, generator)
    else
      var row := NewAccountRow(GetAccountInfo(address, blockNumber, query(address)), NextId(generator));
      Resolution(row, accounts[address := row], Some(row.aid))
  }

  /**
   The resolved account is the one stored afterwards. A stored account is returned as it is and
   nothing changes. A missing one is created consistent, under the next id, which becomes the
   generator's value, with the block as snapshot exactly when the chain has data for it.
   */
  lemma ResolveFindsOrCreates(accounts: map<string, AccountRow>, generator: Option<int>, address: string,
                              blockNumber: nat, query: ChainQuery)
    ensures var r := Resolve(accounts, generator, address, blockNumber, query);
      && address in r.accounts && r.accounts[address] == r.row
      && (address in accounts ==> r == Resolution(accounts[address], accounts, generator))
      && (address !in accounts ==>
            && r.accounts == accounts[address := r.row]
            && r.row.aid == NextId(generator) && r.generator == Some(r.row.aid)
            && Consistent(r.row.balances)
            && (r.row.snapshotAtCurrentBlock == blockNumber <==> query(address).Some?)
            && (query(address).None? ==> r.row.balances == Balances(0, 0, 0) && r.row.snapshotAtCurrentBlock == -1))
  {
  }

  /** Resolving an address that is already stored changes nothing and ignores the chain. */
  lemma ResolveIdempotent(accounts: map<string, AccountRow>, generator: Option<int>, address: string,
                          blockNumber: nat, query: ChainQuery, later: ChainQuery)
    ensures var r := Resolve(accounts, generator, address, blockNumber, query);
            Resolve(r.accounts, r.generator, address, blockNumber, later) == r
  {
  }

  /**
   The Account rows a Transfer leaves, given how its two sides resolved: each side settled on its
   own copy, `to` saved first and `from` last.
   */
  function TransferredAccounts(r1: Resolution, r2: Resolution, from: string, to: string, blockNum: nat,
                               amount: int): map<string, AccountRow>
  {
    var fromAfter := Settle(Debit(amount), r1.row.snapshotAtCurrentBlock, blockNum, r1.row.balances).stored;
    var toAfter := Settle(Credit(amount), r2.row.snapshotAtCurrentBlock, blockNum, r2.row.balances).stored;
    r2.accounts[to := r2.row.(balances := toAfter)][from := r1.row.(balances := fromAfter)]
  }

  /** Between two distinct accounts both outside their snapshot block, a transfer keeps the sum of free balances. */
  lemma TransferKeepsFreeSum(r1: Resolution, r2: Resolution, from: string, to: string, blockNum: nat, amount: int)
    requires from != to
    requires r1.row.snapshotAtCurrentBlock != blockNum && r2.row.snapshotAtCurrentBlock != blockNum
    ensures var after := TransferredAccounts(r1, r2, from, to, blockNum, amount);
            after[from].balances.free + after[to].balances.free == r1.row.balances.free + r2.row.balances.free
  {
    TransferConservesFree(amount, r1.row.snapshotAtCurrentBlock, r2.row.snapshotAtCurrentBlock, blockNum,
                          r1.row.balances, r2.row.balances);
  }

  /**
   A transfer from an account to itself outside its snapshot block leaves it debited: the credit
   is written to the `to` copy, which the save of the `from` copy then overwrites.
   */
  lemma SelfTransferKeepsOnlyDebit(accounts: map<string, AccountRow>, generator: Option<int>, address: string,
                                   blockNum: nat, amount: int, query: ChainQuery)
    requires Resolve(accounts, generator, address, blockNum, query).row.snapshotAtCurrentBlock != blockNum
    ensures var r1 := Resolve(accounts, generator, address, blockNum, query);
            var r2 := Resolve(r1.accounts, r1.generator, address, blockNum, query);
            var after := TransferredAccounts(r1, r2, address, address, blockNum, amount);
            && after[address].balances == Forward(Debit(amount), r1.row.balances)
            && after[address].balances.free == r1.row.balances.free - amount
            && after[address].balances.reserve == r1.row.balances.reserve
            && after[address].balances.total == r1.row.balances.free + r1.row.balances.reserve - amount
  {
    var r := Resolve(accounts, generator, address, blockNum, query);
    ResolveIdempotent(accounts, generator, address, blockNum, query, query);
    SettleForward(Debit(amount), r.row.snapshotAtCurrentBlock, blockNum, r.row.balances);
  }

  /**
   The Account rows a ReserveRepatriated leaves, given how its two sides resolved: each side
   settled on its own copy, the sender saved first and the receiver last.
   */
  function RepatriatedAccounts(r1: Resolution, r2: Resolution, sender: string, receiver: string, blockNum: nat,
                               amount: int, status: BalanceStatus): map<string, AccountRow>
  {
    var fromAfter := Settle(ReserveDebit(amount), r1.row.snapshotAtCurrentBlock, blockNum, r1.row.balances).stored;
    var toAfter := Settle(ReceiverDelta(status, amount), r2.row.snapshotAtCurrentBlock, blockNum, r2.row.balances).stored;
    r2.accounts[sender := r1.row.(balances := fromAfter)][receiver := r2.row.(balances := toAfter)]
  }

  /**
   Between two distinct consistent accounts both outside their snapshot block, a repatriation
   moves the amount from the sender's total to the receiver's.
   */
  lemma RepatriationMovesTotalBetween(r1: Resolution, r2: Resolution, sender: string, receiver: string,
                                      blockNum: nat, amount: int, status: BalanceStatus)
    requires sender != receiver
    requires r1.row.snapshotAtCurrentBlock != blockNum && r2.row.snapshotAtCurrentBlock != blockNum
    requires Consistent(r1.row.balances) && Consistent(r2.row.balances)
    ensures var after := RepatriatedAccounts(r1, r2, sender, receiver, blockNum, amount, status);
            && after[sender].balances.total == r1.row.balances.total - amount
            && after[receiver].balances.total == r2.row.balances.total + amount
  {
    RepatriationMovesTotal(amount, status, r1.row.snapshotAtCurrentBlock, r2.row.snapshotAtCurrentBlock, blockNum,
                           r1.row.balances, r2.row.balances);
  }

  /**
   A repatriation from an account to itself outside its snapshot block leaves only the
   receiver's credit: the sender's copy is saved first and then overwritten.
   */
  lemma SelfRepatriationKeepsOnlyCredit(accounts: map<string, AccountRow>, generator: Option<int>, address: string,
                                        blockNum: nat, amount: int, status: BalanceStatus, query: ChainQuery)
    requires Resolve(accounts, generator, address, blockNum, query).row.snapshotAtCurrentBlock != blockNum
    ensures var r1 := Resolve(accounts, generator, address, blockNum, query);
            var r2 := Resolve(r1.accounts, r1.generator, address, blockNum, query);
            var after := RepatriatedAccounts(r1, r2, address, address, blockNum, amount, status);
            after[address].balances == Forward(ReceiverDelta(status, amount), r1.row.balances)
  {
    ResolveIdempotent(accounts, generator, address, blockNum, query, query);
  }

  /**
   The shared snapshot policy applied to a loaded account: in the snapshot block the account is
   left alone and the old balances are rebuilt from it; otherwise the movement is applied and
   written back.
   */
  method SettleAccount(account: Account, d: Delta, blockNum: nat) returns (before: Balances, after: Balances)
    modifies account
    ensures var o := Settle(d, old(account.snapshotAtCurrentBlock), blockNum, old(account.CurrentBalances()));
            before == o.before && after == o.after && account.CurrentBalances() == o.stored
    ensures account.snapshotAtCurrentBlock == old(account.snapshotAtCurrentBlock)
    ensures account.aid == old(account.aid)
  {
    if account.snapshotAtCurrentBlock == blockNum {
      after := account.CurrentBalances();
      before := Backward(d, after);
    } else {
      before := account.CurrentBalances();
      after := Forward(d, before);
      account.freeBalance := after.free;
      account.reserveBalance := after.reserve;
      account.totalBalance := after.total;
    }
  }

  /** BalanceSet on a loaded account: overwritten with the event's values outside its snapshot block. */
  method SetAccount(account: Account, balance1: int, balance2: int, blockNum: nat)
    returns (before: Balances, after: Balances)
    modifies account
    ensures var o := SettleBalanceSet(old(account.snapshotAtCurrentBlock), blockNum, old(account.CurrentBalances()),
                                      balance1, balance2);
            before == o.before && after == o.after && account.CurrentBalances() == o.stored
    ensures account.snapshotAtCurrentBlock == old(account.snapshotAtCurrentBlock)
    ensures account.aid == old(account.aid)
  {
    before := account.CurrentBalances();
    after := Balances(balance1, balance2, balance1 + balance2);
    if account.snapshotAtCurrentBlock != blockNum {
      account.freeBalance := balance1;
      account.reserveBalance := balance2;
      account.totalBalance := balance1 + balance2;
    }
  }

  /**
   Slash on a loaded account: outside its snapshot block only the total changes, to free +
   reserved - amount; in it the account is left alone and the old total is rebuilt.
   */
  method SlashAccount(account: Account, balance: int, blockNum: nat) returns (before: Balances, totalAfter: int)
    modifies account
    ensures var o := SettleSlash(old(account.snapshotAtCurrentBlock), blockNum, old(account.CurrentBalances()), balance);
            before == o.before && totalAfter == o.totalAfter && account.CurrentBalances() == o.stored
    ensures account.snapshotAtCurrentBlock == old(account.snapshotAtCurrentBlock)
    ensures account.aid == old(account.aid)
  {
    if account.snapshotAtCurrentBlock == blockNum {
      totalAfter := account.totalBalance;
      before := Balances(account.freeBalance, account.reserveBalance,
                         account.freeBalance + account.reserveBalance + balance);
    } else {
      before := account.CurrentBalances();
      totalAfter := before.free + before.reserve - balance;
      account.totalBalance := totalAfter;
    }
  }

  class Indexer {
    /** Account entities by address. */
    var accounts: map<string, AccountRow>
    /** The id generator record's value; None until the first getID. */
    var generator: Option<int>
    /** Audit records by table and id. */
    var records: map<(EventKind, string), EventRecord>

    constructor ()
      ensures accounts == map[] && generator == None && records == map[]
    {
      accounts, generator, records := map[], None, map[];
    }

    /** getID: 0 the first time, then one more than the stored value; the new value is stored. */
    method GetID() returns (id: int)
      modifies this`generator
      ensures id == NextId(old(generator)) && generator == Some(id)
      ensures id > LastId(old(generator))
    {
      match generator {
        case None =>
          generator := Some(0);
          id := 0;
        case Some(prev) =>
          id := prev + 1;
          generator := Some(id);
      }
    }

    /** Account.get: a fresh copy of the stored row, or null when there is none. */
    method GetAccount(address: string) returns (account: Account?)
      ensures account == null <==> address !in accounts
      ensures account != null ==> fresh(account) && account.id == address && account.Row() == accounts[address]
    {
      if address in accounts {
        account := new Account.FromRow(address, accounts[address]);
      } else {
        account := null;
      }
    }

    /** account.save() */
    method Save(account: Account)
      modifies this`accounts
      ensures accounts == old(accounts)[account.id := account.Row()]
    {
      accounts := accounts[account.id := account.Row()];
    }

    /** record.save() */
    method SaveRecord(rec: EventRecord)
      modifies this`records
      ensures records == old(records)[(KindOf(rec), rec.id) := rec]
    {
      records := records[(KindOf(rec), rec.id) := rec];
    }

    /** createNewAccount: snapshot the chain's balances into a new account, take an id, save. */
    method CreateNewAccount(address: string, blockNumber: nat, query: ChainQuery) returns (account: Account)
      modifies this`accounts, this`generator
      ensures fresh(account) && account.id == address
      ensures account.Row() == NewAccountRow(GetAccountInfo(address, blockNumber, query(address)), NextId(old(generator)))
      ensures generator == Some(account.aid)
      ensures accounts == old(accounts)[address := account.Row()]
    {
      account := new Account(address);
      var info := GetAccountInfo(address, blockNumber, query(address));
      account.freeBalance := info.free;
      account.reserveBalance := info.reserved;
      account.totalBalance := info.total;
      account.snapshotAtCurrentBlock := info.snapshotAtCurrentBlock;
      account.aid := GetID();
      Save(account);
    }

    /** The start of every handler: load the account, creating it if it does not exist. */
    method ResolveAccount(address: string, blockNumber: nat, query: ChainQuery) returns (account: Account)
      modifies this`accounts, this`generator
      ensures fresh(account) && account.id == address
      ensures var r := Resolve(old(accounts), old(generator), address, blockNumber, query);
              account.Row() == r.row && accounts == r.accounts && generator == r.generator
    {
      var found := GetAccount(address);
      if found == null {
        account := CreateNewAccount(address, blockNumber, query);
      } else {
        account := found;
      }
    }

    /**
     Transfer(from, to, amount): each side moves only outside its snapshot block; the record
     keeps only the post-event balances; `to` is saved before `from`.
     */
    method HandleTransfer(blockNum: nat, index: nat, from: string, to: string, balanceChange: int,
                          query: ChainQuery) returns (transfer: EventRecord)
      modifies this
      ensures var r1 := Resolve(old(accounts), old(generator), from, blockNum, query);
              var r2 := Resolve(r1.accounts, r1.generator, to, blockNum, query);
              var fromAfter := Settle(Debit(balanceChange), r1.row.snapshotAtCurrentBlock, blockNum, r1.row.balances).stored;
              var toAfter := Settle(Credit(balanceChange), r2.row.snapshotAtCurrentBlock, blockNum, r2.row.balances).stored;
              transfer == TransferRecord(RecordId(blockNum, index), blockNum, from, to, balanceChange,
                                         NextId(r2.generator), fromAfter, toAfter)
      ensures var r1 := Resolve(old(accounts), old(generator), from, blockNum, query);
              accounts == TransferredAccounts(r1, Resolve(r1.accounts, r1.generator, to, blockNum, query),
                                              from, to, blockNum, balanceChange)
      ensures generator == Some(transfer.aid)
      ensures records == old(records)[(EventKind.Transfer, transfer.id) := transfer]
      ensures from !in old(accounts) ==> accounts[from].aid < transfer.aid
      ensures to !in old(accounts) ==> accounts[to].aid < transfer.aid
    {
      ghost var r1 := Resolve(accounts, generator, from, blockNum, query);
      var fromAccount := ResolveAccount(from, blockNum, query);
      ghost var r2 := Resolve(accounts, generator, to, blockNum, query);
      var toAccount := ResolveAccount(to, blockNum, query);
      assert fromAccount != toAccount;
      ghost var o1 := Settle(Debit(balanceChange), r1.row.snapshotAtCurrentBlock, blockNum, r1.row.balances);
      ghost var o2 := Settle(Credit(balanceChange), r2.row.snapshotAtCurrentBlock, blockNum, r2.row.balances);
      var aid := GetID();
      // each side moves only outside its own snapshot block; the old balances are not recorded
      var _, _ := SettleAccount(fromAccount, Debit(balanceChange), blockNum);
      assert fromAccount.Row() == r1.row.(balances := o1.stored);
      assert toAccount.Row() == r2.row;
      var _, _ := SettleAccount(toAccount, Credit(balanceChange), blockNum);
      assert toAccount.Row() == r2.row.(balances := o2.stored);
      assert fromAccount.Row() == r1.row.(balances := o1.stored);
      transfer := TransferRecord(RecordId(blockNum, index), blockNum, from, to, balanceChange, aid,
                                 fromAccount.CurrentBalances(), toAccount.CurrentBalances());
      Save(toAccount);
      assert accounts == r2.accounts[to := r2.row.(balances := o2.stored)];
      Save(fromAccount);
      assert accounts == r2.accounts[to := r2.row.(balances := o2.stored)][from := r1.row.(balances := o1.stored)];
      SaveRecord(transfer);
    }

    /**
     BalanceSet(account, free, reserved): the record's old balances are the account's current
     ones, its new ones the event's values and its change their sum; the account is overwritten
     only outside its snapshot block.
     */
    method HandleBalanceSet(blockNum: nat, index: nat, accountToSet: string, balance1: int, balance2: int,
                            query: ChainQuery) returns (balanceSet: EventRecord)
      modifies this
      ensures var r := Resolve(old(accounts), old(generator), accountToSet, blockNum, query);
              var o := SettleBalanceSet(r.row.snapshotAtCurrentBlock, blockNum, r.row.balances, balance1, balance2);
              && balanceSet == BalanceSetRecord(RecordId(blockNum, index), accountToSet, blockNum,
                                                NextId(r.generator), balance1 + balance2, o.before, o.after)
              && accounts == r.accounts[accountToSet := r.row.(balances := o.stored)]
      ensures generator == Some(balanceSet.aid)
      ensures records == old(records)[(EventKind.BalanceSet, balanceSet.id) := balanceSet]
      ensures accountToSet !in old(accounts) ==> accounts[accountToSet].aid < balanceSet.aid
    {
      ghost var r := Resolve(accounts, generator, accountToSet, blockNum, query);
      var account := ResolveAccount(accountToSet, blockNum, query);
      var aid := GetID();
      var before, after := SetAccount(account, balance1, balance2, blockNum);
      ghost var o := SettleBalanceSet(r.row.snapshotAtCurrentBlock, blockNum, r.row.balances, balance1, balance2);
      assert account.Row() == r.row.(balances := o.stored);
      Save(account);
      assert accounts == r.accounts[accountToSet := r.row.(balances := o.stored)];
      balanceSet := BalanceSetRecord(RecordId(blockNum, index), accountToSet, blockNum, aid,
                                     balance1 + balance2, before, after);
      SaveRecord(balanceSet);
    }

    /** Deposit(account, amount): free += amount under the snapshot policy. */
    method HandleDeposit(blockNum: nat, index: nat, accountToSet: string, balance: int,
                         query: ChainQuery) returns (deposit: EventRecord)
      modifies this
      ensures var r := Resolve(old(accounts), old(generator), accountToSet, blockNum, query);
              var o := Settle(Credit(balance), r.row.snapshotAtCurrentBlock, blockNum, r.row.balances);
              && deposit == DepositRecord(RecordId(blockNum, index), accountToSet, blockNum,
                                          NextId(r.generator), balance, o.before, o.after)
              && accounts == r.accounts[accountToSet := r.row.(balances := o.stored)]
      ensures generator == Some(deposit.aid)
      ensures records == old(records)[(EventKind.Deposit, deposit.id) := deposit]
      ensures accountToSet !in old(accounts) ==> accounts[accountToSet].aid < deposit.aid
    {
      ghost var r := Resolve(accounts, generator, accountToSet, blockNum, query);
      var account := ResolveAccount(accountToSet, blockNum, query);
      var aid := GetID();
      var before, after := SettleAccount(account, Credit(balance), blockNum);
      ghost var o := Settle(Credit(balance), r.row.snapshotAtCurrentBlock, blockNum, r.row.balances);
      assert account.Row() == r.row.(balances := o.stored);
      Save(account);
      assert accounts == r.accounts[accountToSet := r.row.(balances := o.stored)];
      deposit := DepositRecord(RecordId(blockNum, index), accountToSet, blockNum, aid, balance, before, after);
      SaveRecord(deposit);
    }

    /** Reserved(account, amount): amount moves from free to reserved under the snapshot policy. */
    method HandleReserved(blockNum: nat, index: nat, accountToSet: string, balance: int,
                          query: ChainQuery) returns (reserved: EventRecord)
      modifies this
      ensures var r := Resolve(old(accounts), old(generator), accountToSet, blockNum, query);
              var o := Settle(Reserve(balance), r.row.snapshotAtCurrentBlock, blockNum, r.row.balances);
              && reserved == ReservedRecord(RecordId(blockNum, index), accountToSet, blockNum,
                                            NextId(r.generator), balance, o.before, o.after)
              && accounts == r.accounts[accountToSet := r.row.(balances := o.stored)]
      ensures generator == Some(reserved.aid)
      ensures records == old(records)[(EventKind.Reserved, reserved.id) := reserved]
      ensures accountToSet !in old(accounts) ==> accounts[accountToSet].aid < reserved.aid
    {
      ghost var r := Resolve(accounts, generator, accountToSet, blockNum, query);
      var account := ResolveAccount(accountToSet, blockNum, query);
      var aid := GetID();
      var before, after := SettleAccount(account, Reserve(balance), blockNum);
      ghost var o := Settle(Reserve(balance), r.row.snapshotAtCurrentBlock, blockNum, r.row.balances);
      assert account.Row() == r.row.(balances := o.stored);
      Save(account);
      assert accounts == r.accounts[accountToSet := r.row.(balances := o.stored)];
      reserved := ReservedRecord(RecordId(blockNum, index), accountToSet, blockNum, aid, balance, before, after);
      SaveRecord(reserved);
    }

    /** Unreserved(account, amount): amount moves from reserved to free under the snapshot policy. */
    method HandleUnreserved(blockNum: nat, index: nat, accountToSet: string, balance: int,
                            query: ChainQuery) returns (unreserved: EventRecord)
      modifies this
      ensures var r := Resolve(old(accounts), old(generator), accountToSet, blockNum, query);
              var o := Settle(Unreserve(balance), r.row.snapshotAtCurrentBlock, blockNum, r.row.balances);
              && unreserved == UnreservedRecord(RecordId(blockNum, index), accountToSet, blockNum,
                                                NextId(r.generator), balance, o.before, o.after)
              && accounts == r.accounts[accountToSet := r.row.(balances := o.stored)]
      ensures generator == Some(unreserved.aid)
      ensures records == old(records)[(EventKind.Unreserved, unreserved.id) := unreserved]
      ensures accountToSet !in old(accounts) ==> accounts[accountToSet].aid < unreserved.aid
    {
      ghost var r := Resolve(accounts, generator, accountToSet, blockNum, query);
      var account := ResolveAccount(accountToSet, blockNum, query);
      var aid := GetID();
      var before, after := SettleAccount(account, Unreserve(balance), blockNum);
      ghost var o := Settle(Unreserve(balance), r.row.snapshotAtCurrentBlock, blockNum, r.row.balances);
      assert account.Row() == r.row.(balances := o.stored);
      Save(account);
      assert accounts == r.accounts[accountToSet := r.row.(balances := o.stored)];
      unreserved := UnreservedRecord(RecordId(blockNum, index), accountToSet, blockNum, aid, balance, before, after);
      SaveRecord(unreserved);
    }

    /** Withdraw(account, amount): free -= amount under the snapshot policy. */
    method HandleWithdraw(blockNum: nat, index: nat, accountToSet: string, balance: int,
                          query: ChainQuery) returns (withdraw: EventRecord)
      modifies this
      ensures var r := Resolve(old(accounts), old(generator), accountToSet, blockNum, query);
              var o := Settle(Debit(balance), r.row.snapshotAtCurrentBlock, blockNum, r.row.balances);
              && withdraw == WithdrawRecord(RecordId(blockNum, index), accountToSet, blockNum,
                                            NextId(r.generator), balance, o.before, o.after)
              && accounts == r.accounts[accountToSet := r.row.(balances := o.stored)]
      ensures generator == Some(withdraw.aid)
      ensures records == old(records)[(EventKind.Withdraw, withdraw.id) := withdraw]
      ensures accountToSet !in old(accounts) ==> accounts[accountToSet].aid < withdraw.aid
    {
      ghost var r := Resolve(accounts, generator, accountToSet, blockNum, query);
      var account := ResolveAccount(accountToSet, blockNum, query);
      var aid := GetID();
      var before, after := SettleAccount(account, Debit(balance), blockNum);
      ghost var o := Settle(Debit(balance), r.row.snapshotAtCurrentBlock, blockNum, r.row.balances);
      assert account.Row() == r.row.(balances := o.stored);
      Save(account);
      assert accounts == r.accounts[accountToSet := r.row.(balances := o.stored)];
      withdraw := WithdrawRecord(RecordId(blockNum, index), accountToSet, blockNum, aid, balance, before, after);
      SaveRecord(withdraw);
    }

    /**
     Slash(account, amount): outside the snapshot block only the account's total changes, to
     free + reserved - amount; in it the account is left alone and the old total is rebuilt.
     */
    method HandleSlash(blockNum: nat, index: nat, accountToSet: string, balance: int,
                       query: ChainQuery) returns (slash: EventRecord)
      modifies this
      ensures var r := Resolve(old(accounts), old(generator), accountToSet, blockNum, query);
              var o := SettleSlash(r.row.snapshotAtCurrentBlock, blockNum, r.row.balances, balance);
              && slash == SlashRecord(RecordId(blockNum, index), accountToSet, blockNum,
                                      NextId(r.generator), balance, o.before, o.totalAfter)
              && accounts == r.accounts[accountToSet := r.row.(balances := o.stored)]
      ensures generator == Some(slash.aid)
      ensures records == old(records)[(EventKind.Slash, slash.id) := slash]
      ensures accountToSet !in old(accounts) ==> accounts[accountToSet].aid < slash.aid
    {
      ghost var r := Resolve(accounts, generator, accountToSet, blockNum, query);
      var account := ResolveAccount(accountToSet, blockNum, query);
      var aid := GetID();
      var before, totalAfter := SlashAccount(account, balance, blockNum);
      ghost var o := SettleSlash(r.row.snapshotAtCurrentBlock, blockNum, r.row.balances, balance);
      assert account.Row() == r.row.(balances := o.stored);
      Save(account);
      assert accounts == r.accounts[accountToSet := r.row.(balances := o.stored)];
      slash := SlashRecord(RecordId(blockNum, index), accountToSet, blockNum, aid, balance, before, totalAfter);
      SaveRecord(slash);
    }

    /**
     ReserveRepatriated(sender, receiver, amount, status): the sender's reserved balance falls by
     amount; the receiver's free balance (status Free) or reserved balance (status Reserved)
     rises by it; each side follows its own snapshot test; the sender is saved before the receiver.
     */
    method HandleReservRepatriated(blockNum: nat, index: nat, sender: string, receiver: string,
                                   balance: int, status: BalanceStatus, query: ChainQuery)
      returns (repatriated: EventRecord)
      modifies this
      ensures var r1 := Resolve(old(accounts), old(generator), sender, blockNum, query);
              var r2 := Resolve(r1.accounts, r1.generator, receiver, blockNum, query);
              var o1 := Settle(ReserveDebit(balance), r1.row.snapshotAtCurrentBlock, blockNum, r1.row.balances);
              var o2 := Settle(ReceiverDelta(status, balance), r2.row.snapshotAtCurrentBlock, blockNum, r2.row.balances);
              repatriated == ReservRepatriatedRecord(RecordId(blockNum, index), sender, receiver, blockNum,
                                                     NextId(r2.generator), balance,
                                                     o1.before, o1.after, o2.before, o2.after)
      ensures var r1 := Resolve(old(accounts), old(generator), sender, blockNum, query);
              accounts == RepatriatedAccounts(r1, Resolve(r1.accounts, r1.generator, receiver, blockNum, query),
                                              sender, receiver, blockNum, balance, status)
      ensures generator == Some(repatriated.aid)
      ensures records == old(records)[(EventKind.ReservRepatriated, repatriated.id) := repatriated]
      ensures sender !in old(accounts) ==> accounts[sender].aid < repatriated.aid
      ensures receiver !in old(accounts) ==> accounts[receiver].aid < repatriated.aid
    {
      ghost var r1 := Resolve(accounts, generator, sender, blockNum, query);
      var senderAccount := ResolveAccount(sender, blockNum, query);
      ghost var r2 := Resolve(accounts, generator, receiver, blockNum, query);
      var receiverAccount := ResolveAccount(receiver, blockNum, query);
      assert senderAccount != receiverAccount;
      ghost var o1 := Settle(ReserveDebit(balance), r1.row.snapshotAtCurrentBlock, blockNum, r1.row.balances);
      ghost var o2 := Settle(ReceiverDelta(status, balance), r2.row.snapshotAtCurrentBlock, blockNum, r2.row.balances);
      var aid := GetID();
      var fromBefore, fromAfter := SettleAccount(senderAccount, ReserveDebit(balance), blockNum);
      assert senderAccount.Row() == r1.row.(balances := o1.stored);
      assert receiverAccount.Row() == r2.row;
      var toBefore, toAfter := SettleAccount(receiverAccount, ReceiverDelta(status, balance), blockNum);
      assert receiverAccount.Row() == r2.row.(balances := o2.stored);
      assert senderAccount.Row() == r1.row.(balances := o1.stored);
      Save(senderAccount);
      assert accounts == r2.accounts[sender := r1.row.(balances := o1.stored)];
      Save(receiverAccount);
      assert accounts == r2.accounts[sender := r1.row.(balances := o1.stored)][receiver := r2.row.(balances := o2.stored)];
      repatriated := ReservRepatriatedRecord(RecordId(blockNum, index), senderAccount.id, receiverAccount.id,
                                             blockNum, aid, balance, fromBefore, fromAfter, toBefore, toAfter);
      SaveRecord(repatriated);
    }
  }
}
