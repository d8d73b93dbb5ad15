/**
 The reconciliation rules every handler applies to an account side of an event, as pure
 functions: the forward delta of each movement, its inverse, and the two-branch snapshot policy
 keyed on whether the account's snapshot block equals the event's block.
 */
module BalanceRules {
  import opened Entities

  /** How one account side of an event moves its free and reserved balance. */
  datatype Delta =
    | Credit(amount: int)         // free += amount: Deposit, Transfer receiver, repatriation to Free
    | Debit(amount: int)          // free -= amount: Withdraw, Transfer sender
    | Reserve(amount: int)        // free -= amount, reserved += amount: Reserved
    | Unreserve(amount: int)      // free += amount, reserved -= amount: Unreserved
    | ReserveDebit(amount: int)   // reserved -= amount: repatriation sender
    | ReserveCredit(amount: int)  // reserved += amount: repatriation to Reserved

  /** The change to the account's total each movement stands for. */
  function NetChange(d: Delta): int
  {
    match d
    case Credit(a) => a
    case Debit(a) => -a
    case Reserve(_) => 0
    case Unreserve(_) => 0
    case ReserveDebit(a) => -a
    case ReserveCredit(a) => a
  }

  /** The same free and reserved balance with the total recomputed as their sum. */
  function Normalized(b: Balances): (r: Balances)
    ensures Consistent(r) && r.free == b.free && r.reserve == b.reserve
    ensures Consistent(b) ==> r == b
  {
    Balances(b.free, b.reserve, b.free + b.reserve)
  }

  /**
   Forward branch: the new balances from the old ones. The new total is always recomputed from
   the new free and reserved balance; the old stored total plays no part.
   */
  function Forward(d: Delta, b: Balances): Balances
  {
    match d
    case Credit(a) => Balances(b.free + a, b.reserve, b.free + a + b.reserve)
    case Debit(a) => Balances(b.free - a, b.reserve, b.free - a + b.reserve)
    case Reserve(a) => Balances(b.free - a, b.reserve + a, b.free - a + (b.reserve + a))
    case Unreserve(a) => Balances(b.free + a, b.reserve - a, b.free + a + (b.reserve - a))
    case ReserveDebit(a) => Balances(b.free, b.reserve - a, b.free + (b.reserve - a))
    case ReserveCredit(a) => Balances(b.free, b.reserve + a, b.free + (b.reserve + a))
  }

  /**
   A movement leaves total == free + reserved, changes the total by exactly its declared
   effect, and touches only the parts of the balance it names.
   */
  lemma ForwardAppliesMovement(d: Delta, b: Balances)
    ensures var r := Forward(d, b);
      && Consistent(r)
      && r.total == b.free + b.reserve + NetChange(d)
      && (d.Credit? ==> r.free == b.free + d.amount && r.reserve == b.reserve)
      && (d.Debit? ==> r.free == b.free - d.amount && r.reserve == b.reserve)
      && (d.Reserve? ==> r.free == b.free - d.amount && r.reserve == b.reserve + d.amount)
      && (d.Unreserve? ==> r.free == b.free + d.amount && r.reserve == b.reserve - d.amount)
      && (d.ReserveDebit? ==> r.free == b.free && r.reserve == b.reserve - d.amount)
      && (d.ReserveCredit? ==> r.free == b.free && r.reserve == b.reserve + d.amount)
  {
  }

  /**
   Same-block branch: the old balances rebuilt from the current (already post-event) ones by
   inverting the movement; the old total is the sum of the rebuilt free and reserved balance.
   */
  function Backward(d: Delta, a: Balances): Balances
  {
    match d
    case Credit(x) => Balances(a.free - x, a.reserve, a.free - x + a.reserve)
    case Debit(x) => Balances(a.free + x, a.reserve, a.free + x + a.reserve)
    case Reserve(x) => Balances(a.free + x, a.reserve - x, a.free + x + (a.reserve - x))
    case Unreserve(x) => Balances(a.free - x, a.reserve + x, a.free - x + (a.reserve + x))
    case ReserveDebit(x) => Balances(a.free, a.reserve + x, a.free + (a.reserve + x))
    case ReserveCredit(x) => Balances(a.free, a.reserve - x, a.free + (a.reserve - x))
  }

  /** The rebuilt old balances are consistent, and moving them forward gives back the current ones. */
  lemma ForwardUndoesBackward(d: Delta, a: Balances)
    ensures Consistent(Backward(d, a))
    ensures Forward(d, Backward(d, a)) == Normalized(a)
  {
  }

  /** Inverting a movement after applying it gives back consistent balances. */
  lemma BackwardUndoesForward(d: Delta, b: Balances)
    requires Consistent(b)
    ensures Backward(d, Forward(d, b)) == b
  {
  }

  /**
   What one account side of an event yields: the audit record's old (`before`) and new
   (`after`) balances and the balances left on the account (`stored`).
   */
  datatype Outcome = Outcome(before: Balances, after: Balances, stored: Balances)

  /** The shared snapshot policy for one account side moved by `d`. */
  function Settle(d: Delta, snapshot: int, blockNum: int, current: Balances): Outcome
  {
    if snapshot == blockNum then
      Outcome(Backward(d, current), current, current)
    else
      var next := Forward(d, current);
      Outcome(current, next, next)
  }

  /**
   Same-block branch: the account is untouched, the record's new balances are the account's,
   and applying the movement to the rebuilt old balances gives them back.
   */
  lemma SettleSameBlock(d: Delta, snapshot: int, blockNum: int, current: Balances)
    requires snapshot == blockNum
    ensures var o := Settle(d, snapshot, blockNum, current);
            o.stored == current && o.after == current && Forward(d, o.before) == Normalized(current)
  {
  }

  /**
   Forward branch: the record's old balances are the account's, and the account takes the
   record's new balances, for which total == free + reserved.
   */
  lemma SettleForward(d: Delta, snapshot: int, blockNum: int, current: Balances)
    requires snapshot != blockNum
    ensures var o := Settle(d, snapshot, blockNum, current);
            o.before == current && o.stored == o.after && Consistent(o.stored)
            && o.after.total == current.free + current.reserve + NetChange(d)
  {
  }

  /**
   In either branch, for a consistent account, the audit record's new balances are its old ones
   moved by the event, its totals differ by exactly the declared effect, and the account stays
   consistent.
   */
  lemma SettleRecordsMovement(d: Delta, snapshot: int, blockNum: int, current: Balances)
    requires Consistent(current)
    ensures var o := Settle(d, snapshot, blockNum, current);
            Forward(d, o.before) == o.after && o.after.total - o.before.total == NetChange(d)
            && Consistent(o.stored)
  {
  }

  /**
   BalanceSet: the record's old balances are the account's current ones in either branch (in
   the same-block branch they cannot be recovered from the event); its new balances are the
   event's absolute values; the account is overwritten only in the forward branch.
   */
  function SettleBalanceSet(snapshot: int, blockNum: int, current: Balances, free: int, reserved: int): Outcome
  {
    var given := Balances(free, reserved, free + reserved);
    Outcome(current, given, if snapshot == blockNum then current else given)
  }

  /**
   The record of a BalanceSet holds the account's balances as its old ones and the event's
   values as its new ones; only outside the snapshot block does the account take them.
   */
  lemma SettleBalanceSetOverwrites(snapshot: int, blockNum: int, current: Balances, free: int, reserved: int)
    ensures var o := SettleBalanceSet(snapshot, blockNum, current, free, reserved);
      && o.before == current
      && Consistent(o.after) && o.after.free == free && o.after.reserve == reserved
      && (snapshot == blockNum ==> o.stored == current)
      && (snapshot != blockNum ==> o.stored == o.after)
  {
  }

  /** A Slash side: old balances, the new total (the only new value recorded) and what is stored. */
  datatype SlashOutcome = SlashOutcome(before: Balances, totalAfter: int, stored: Balances)

  /**
   Slash under the snapshot policy: the split of a slash between free and reserved balance is
   unknown, so only the total moves.
   */
  function SettleSlash(snapshot: int, blockNum: int, current: Balances, amount: int): SlashOutcome
  {
    if snapshot == blockNum then
      SlashOutcome(Balances(current.free, current.reserve, current.free + current.reserve + amount),
                   current.total, current)
    else
      var total := current.free + current.reserve - amount;
      SlashOutcome(current, total, current.(total := total))
  }

  /**
   A slash never touches free or reserved balance; in the snapshot block it leaves the account
   alone, outside it the account takes the recorded new total; for a consistent account the
   recorded totals differ by exactly the amount.
   */
  lemma SettleSlashMovesOnlyTotal(snapshot: int, blockNum: int, current: Balances, amount: int)
    ensures var o := SettleSlash(snapshot, blockNum, current, amount);
            && o.stored.free == current.free && o.stored.reserve == current.reserve
            && o.before.free == current.free && o.before.reserve == current.reserve
            && (snapshot == blockNum ==> o.stored == current && o.totalAfter == current.total)
            && (snapshot != blockNum ==> o.before == current && o.stored.total == o.totalAfter)
            && (snapshot != blockNum ==> o.totalAfter == current.free + current.reserve - amount)
            && (snapshot == blockNum ==> o.before.total == current.free + current.reserve + amount)
            && (Consistent(current) ==> o.before.total - o.totalAfter == amount)
  {
  }

  /** A forward Slash of a non-zero amount leaves the account with total != free + reserved. */
  lemma ForwardSlashBreaksConsistency(snapshot: int, blockNum: int, current: Balances, amount: int)
    requires snapshot != blockNum && amount != 0
    ensures !Consistent(SettleSlash(snapshot, blockNum, current, amount).stored)
  {
  }

  /** Where a repatriation puts the amount on the receiver's side: the chain's balance status. */
  datatype BalanceStatus = Free | Reserved

  /** The receiver's movement in a repatriation: free balance for status Free, reserved otherwise. */
  function ReceiverDelta(status: BalanceStatus, amount: int): Delta
  {
    if status.Free? then Credit(amount) else ReserveCredit(amount)
  }

  /** The receiver gains exactly the amount: in free balance for status Free, in reserved otherwise. */
  lemma ReceiverGainsAmount(status: BalanceStatus, amount: int, b: Balances)
    ensures NetChange(ReceiverDelta(status, amount)) == amount
    ensures var r := Forward(ReceiverDelta(status, amount), b);
            && r.total == b.free + b.reserve + amount
            && (status.Free? ==> r.free == b.free + amount && r.reserve == b.reserve)
            && (status.Reserved? ==> r.free == b.free && r.reserve == b.reserve + amount)
  {
    ForwardAppliesMovement(ReceiverDelta(status, amount), b);
  }

  /** With both sides in the forward branch, a transfer keeps the sum of the free balances. */
  lemma TransferConservesFree(amount: int, fromSnapshot: int, toSnapshot: int, blockNum: int,
                              from: Balances, to: Balances)
    requires fromSnapshot != blockNum && toSnapshot != blockNum
    ensures Settle(Debit(amount), fromSnapshot, blockNum, from).stored.free
          + Settle(Credit(amount), toSnapshot, blockNum, to).stored.free
         == from.free + to.free
  {
  }

  /**
   With both sides outside their snapshot block, a repatriation lowers the consistent sender's
   total by the amount and raises the consistent receiver's total by it, whatever the status.
   */
  lemma RepatriationMovesTotal(amount: int, status: BalanceStatus, senderSnapshot: int, receiverSnapshot: int,
                               blockNum: int, sender: Balances, receiver: Balances)
    requires senderSnapshot != blockNum && receiverSnapshot != blockNum
    requires Consistent(sender) && Consistent(receiver)
    ensures Settle(ReserveDebit(amount), senderSnapshot, blockNum, sender).stored.total == sender.total - amount
    ensures Settle(ReceiverDelta(status, amount), receiverSnapshot, blockNum, receiver).stored.total
         == receiver.total + amount
  {
    ReceiverGainsAmount(status, amount, receiver);
    SettleForward(ReceiverDelta(status, amount), receiverSnapshot, blockNum, receiver);
  }

  // ---------------------------------------------------------------------------------------
  // Successive events on one account. An account's snapshot block is fixed at creation and no
  // handler writes it, so the account's fate is a fold of the per-event rules.

  /** One event as it reaches a single account. */
  datatype AccountEvent =
    | Moved(delta: Delta, blockNum: int)               // a side of Transfer, Deposit, ... ReserveRepatriated
    | Reset(free: int, reserved: int, blockNum: int)   // BalanceSet
    | Slashed(amount: int, blockNum: int)              // Slash

  function StoredAfter(e: AccountEvent, snapshot: int, current: Balances): Balances
  {
    match e
    case Moved(d, bn) => Settle(d, snapshot, bn, current).stored
    case Reset(f, r, bn) => SettleBalanceSet(snapshot, bn, current, f, r).stored
    case Slashed(a, bn) => SettleSlash(snapshot, bn, current, a).stored
  }

  /** The balances an account holds after the given events, in order. */
  function Replay(snapshot: int, current: Balances, events: seq<AccountEvent>): Balances
    decreases |events|
  {
    if events == [] then current
    else Replay(snapshot, StoredAfter(events[0], snapshot, current), events[1..])
  }

  /** Events in the account's own snapshot block never change it. */
  lemma {:induction false} ReplayAtSnapshotBlock(snapshot: int, current: Balances, events: seq<AccountEvent>)
    requires forall i :: 0 <= i < |events| ==> events[i].blockNum == snapshot
    ensures Replay(snapshot, current, events) == current
    decreases |events|
  {
    if events != [] {
      ReplayAtSnapshotBlock(snapshot, current, events[1..]);
    }
  }

  /** Without slashes, total == free + reserved survives any sequence of events. */
  lemma {:induction false} ReplayKeepsConsistent(snapshot: int, current: Balances, events: seq<AccountEvent>)
    requires Consistent(current)
    requires forall i :: 0 <= i < |events| ==> !events[i].Slashed?
    ensures Consistent(Replay(snapshot, current, events))
    decreases |events|
  {
    if events != [] {
      ReplayKeepsConsistent(snapshot, StoredAfter(events[0], snapshot, current), events[1..]);
    }
  }

  function SumNetChange(events: seq<AccountEvent>): int
    requires forall i :: 0 <= i < |events| ==> events[i].Moved?
  {
    if events == [] then 0 else NetChange(events[0].delta) + SumNetChange(events[1..])
  }

  /** Forward movements change a consistent account's total by exactly their declared effects. */
  lemma {:induction false} ReplayForwardTotal(snapshot: int, current: Balances, events: seq<AccountEvent>)
    requires Consistent(current)
    requires forall i :: 0 <= i < |events| ==> events[i].Moved? && events[i].blockNum != snapshot
    ensures Replay(snapshot, current, events).total == current.total + SumNetChange(events)
    decreases |events|
  {
    if events != [] {
      ReplayForwardTotal(snapshot, StoredAfter(events[0], snapshot, current), events[1..]);
    }
  }

  /**
   A second forward Slash discards the first: each one sets the total from free and reserved,
   which a Slash never changes, so only the last amount shows.
   */
  lemma SecondSlashDiscardsFirst(snapshot: int, current: Balances, a1: int, b1: int, a2: int, b2: int)
    requires b1 != snapshot && b2 != snapshot
    ensures Replay(snapshot, current, [Slashed(a1, b1), Slashed(a2, b2)]).total
         == current.free + current.reserve - a2
  {
    var events := [Slashed(a1, b1), Slashed(a2, b2)];
    var slashed := SettleSlash(snapshot, b1, current, a1).stored;
    assert events[1..] == [Slashed(a2, b2)];
    assert Replay(snapshot, current, events) == Replay(snapshot, slashed, [Slashed(a2, b2)]);
    assert Replay(snapshot, slashed, [Slashed(a2, b2)]) == SettleSlash(snapshot, b2, slashed, a2).stored;
  }

  /**
   A forward Slash followed by a forward movement: the movement recomputes the total from free
   and reserved balance, so the slash no longer shows in the account.
   */
  lemma SlashForgottenByNextMovement(snapshot: int, current: Balances, amount: int, d: Delta, b1: int, b2: int)
    requires snapshot != b1 && snapshot != b2
    ensures Replay(snapshot, current, [Slashed(amount, b1), Moved(d, b2)])
         == Forward(d, current)
  {
    var events := [Slashed(amount, b1), Moved(d, b2)];
    var slashed := SettleSlash(snapshot, b1, current, amount).stored;
    assert events[1..] == [Moved(d, b2)];
    assert Replay(snapshot, current, events) == Replay(snapshot, slashed, [Moved(d, b2)]);
    assert Replay(snapshot, slashed, [Moved(d, b2)]) == Forward(d, slashed);
    assert Forward(d, slashed) == Forward(d, current) by {
      assert slashed.free == current.free && slashed.reserve == current.reserve;
    }
  }
}
