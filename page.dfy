/** The page's render-time pipeline: the balances of the current friends and expenses, and the
    settlement plan computed from them. */
module Page {
  import opened Types
  import opened Ledger
  import opened Balances
  import opened Settlements

  /** `const balances = calculateBalances(); const settlements = optimizeSettlements(balances)`. */
  method SettleUp(friends: seq<Friend>, expenses: seq<Expense>)
    returns (balances: seq<Slot>, settlements: seq<Settlement>)
    ensures IsBalanceSheet(friends, expenses, balances)
    ensures settlements == Plan(balances)
  {
    balances := CalculateBalances(friends, expenses);
    settlements := OptimizeSettlements(balances);
  }

  /** When every payer is a friend, the page's transfers run between two different friends, are
      positive, and number fewer than the friends. */
  lemma TransfersBetweenFriends(friends: seq<Friend>, expenses: seq<Expense>, balances: seq<Slot>)
    requires IsBalanceSheet(friends, expenses, balances) && PayersAreFriends(friends, expenses)
    ensures forall s :: s in Plan(balances) ==>
      s.amount > 0.0 && s.from in Names(friends, |friends|) && s.to in Names(friends, |friends|) && s.from != s.to
    ensures Plan(balances) == [] || |Plan(balances)| < |friends|
  {
    var names := Names(friends, |friends|);
    assert Keys(balances) == names by {
      PayersInNames(friends, expenses, |expenses|);
    }
    assert Plan(balances) == [] || |Plan(balances)| < |friends| by {
      PlanLength(balances);
      KeyCount(balances);
      NamesCount(friends, |friends|);
    }
    PlanShape(balances);
    forall s | s in Plan(balances) ensures s.from in names && s.to in names {
      assert Lookup(balances, s.from).Some? && Lookup(balances, s.to).Some?;
    }
  }

  /** When there is at least one friend and every payer is a friend, carrying out the page's
      transfers leaves each name having paid, in expenses and transfers, exactly the shares
      debited to it. */
  lemma EveryonePaysTheirShare(friends: seq<Friend>, expenses: seq<Expense>, balances: seq<Slot>)
    requires IsBalanceSheet(friends, expenses, balances)
    requires |friends| > 0 && PayersAreFriends(friends, expenses)
    ensures forall k :: k in Names(friends, |friends|) ==>
      PaidBy(expenses, |expenses|, k) + Outflow(Plan(balances), k) - Inflow(Plan(balances), k) ==
      Charged(friends, |friends|, k, FairShare(friends, expenses))
  {
    assert NumericSum(balances) == 0.0 by {
      BalancesSumToZero(friends, expenses, balances);
    }
    PlanSettles(balances);
  }

  /** With distinct names as well, every friend ends having paid exactly an equal split of the
      total. */
  lemma EqualSplit(friends: seq<Friend>, expenses: seq<Expense>, balances: seq<Slot>)
    requires IsBalanceSheet(friends, expenses, balances)
    requires |friends| > 0 && PayersAreFriends(friends, expenses) && DistinctNames(friends)
    ensures forall k :: k in Names(friends, |friends|) ==>
      PaidBy(expenses, |expenses|, k) + Outflow(Plan(balances), k) - Inflow(Plan(balances), k) ==
      TotalExpense(expenses, |expenses|) / (|friends| as real)
  {
    var share := FairShare(friends, expenses);
    EveryonePaysTheirShare(friends, expenses, balances);
    forall k | k in Names(friends, |friends|) ensures Charged(friends, |friends|, k, share) == share {
      DistinctNameCharged(friends, |friends|, k, share);
    }
  }
}
