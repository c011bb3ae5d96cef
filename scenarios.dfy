/** Worked examples of the whole pipeline on small groups. Each is stated for any balance
    object the page can compute from the group, which is unique (`SheetUnique`). */
module Scenarios {
  import opened Types
  import opened Ledger
  import opened Balances
  import opened Settlements

  /** Alice pays 90 for three: Alice is owed 60, Bob and Carol owe 30 each. */
  lemma OnePayerOfThreeBalances()
    ensures IsBalanceSheet(
      [Friend("1", "Alice"), Friend("2", "Bob"), Friend("3", "Carol")],
      [Expense(1, "Alice", 90.0, "dinner")],
      [Slot("Alice", Num(60.0)), Slot("Bob", Num(-30.0)), Slot("Carol", Num(-30.0))])
  {
    var friends := [Friend("1", "Alice"), Friend("2", "Bob"), Friend("3", "Carol")];
    var balances := [Slot("Alice", Num(60.0)), Slot("Bob", Num(-30.0)), Slot("Carol", Num(-30.0))];
    assert Names(friends, 3) == {"Alice", "Bob", "Carol"};
    assert Keys(balances) == {"Alice", "Bob", "Carol"};
    assert NameOrder(friends, 2) == ["Alice", "Bob"];
    assert NameOrder(friends, 3) == ["Alice", "Bob", "Carol"];
    assert KeySeq(balances) == ["Alice", "Bob", "Carol"];
  }

  /** Whatever object the page computes for that group, Bob (first in the object) and then
      Carol each pay Alice 30. */
  lemma OnePayerOfThreePlan(balances: seq<Slot>)
    requires IsBalanceSheet(
      [Friend("1", "Alice"), Friend("2", "Bob"), Friend("3", "Carol")],
      [Expense(1, "Alice", 90.0, "dinner")],
      balances)
    ensures balances == [Slot("Alice", Num(60.0)), Slot("Bob", Num(-30.0)), Slot("Carol", Num(-30.0))]
    ensures Plan(balances) == [Settlement("Bob", "Alice", 30.0), Settlement("Carol", "Alice", 30.0)]
  {
    OnePayerOfThreeBalances();
    SheetUnique(
      [Friend("1", "Alice"), Friend("2", "Bob"), Friend("3", "Carol")],
      [Expense(1, "Alice", 90.0, "dinner")],
      balances,
      [Slot("Alice", Num(60.0)), Slot("Bob", Num(-30.0)), Slot("Carol", Num(-30.0))]);
    OnePayerOfThreeSides();
    OnePayerOfThreeWalk();
  }

  lemma OnePayerOfThreeSides()
    ensures var balances := [Slot("Alice", Num(60.0)), Slot("Bob", Num(-30.0)), Slot("Carol", Num(-30.0))];
      Sort(Debtors(balances), false) == [Party("Bob", -30.0), Party("Carol", -30.0)] &&
      Sort(Creditors(balances), true) == [Party("Alice", 60.0)]
  {
    var balances := [Slot("Alice", Num(60.0)), Slot("Bob", Num(-30.0)), Slot("Carol", Num(-30.0))];
    var bob, carol, alice := Party("Bob", -30.0), Party("Carol", -30.0), Party("Alice", 60.0);
    assert Debtors(balances) == [bob, carol];
    assert [bob, carol][1..] == [carol] && [carol][1..] == [];
    assert Sort([carol], false) == [carol];
    assert Sort(Debtors(balances), false) == Insert(bob, [carol], false);
    assert Creditors(balances) == [alice];
    assert [alice][1..] == [];
  }

  lemma OnePayerOfThreeWalk()
    ensures Greedy([Party("Bob", -30.0), Party("Carol", -30.0)], [Party("Alice", 60.0)]) ==
      [Settlement("Bob", "Alice", 30.0), Settlement("Carol", "Alice", 30.0)]
  {
    var bob, carol, alice := Party("Bob", -30.0), Party("Carol", -30.0), Party("Alice", 60.0);
    var rest := [Party("Alice", 30.0)];
    assert [bob, carol][1..] == [carol] && [alice][1..] == [] && [carol][1..] == [] && rest[1..] == [];
    assert [Party("Alice", 60.0 + -30.0)] + [alice][1..] == rest;
    assert Greedy([bob, carol], [alice]) == [Settlement("Bob", "Alice", 30.0)] + Greedy([carol], rest);
    assert Greedy([carol], rest) == [Settlement("Carol", "Alice", 30.0)];
  }

  /** Alice and Bob each pay 50: both are even. */
  lemma EvenSplitBalances()
    ensures IsBalanceSheet(
      [Friend("1", "Alice"), Friend("2", "Bob")],
      [Expense(1, "Alice", 50.0, "tickets"), Expense(2, "Bob", 50.0, "taxi")],
      [Slot("Alice", Num(0.0)), Slot("Bob", Num(0.0))])
  {
    var friends := [Friend("1", "Alice"), Friend("2", "Bob")];
    var expenses := [Expense(1, "Alice", 50.0, "tickets"), Expense(2, "Bob", 50.0, "taxi")];
    var balances := [Slot("Alice", Num(0.0)), Slot("Bob", Num(0.0))];
    assert Names(friends, 2) == {"Alice", "Bob"};
    assert Payers(expenses, 2) == {"Alice", "Bob"};
    assert Keys(balances) == {"Alice", "Bob"};
    assert NameOrder(friends, 2) == ["Alice", "Bob"];
    assert KeyOrder(friends, expenses, 1) == ["Alice", "Bob"];
    assert KeySeq(balances) == ["Alice", "Bob"];
  }

  /** So whatever object the page computes for them, no transfer is proposed. */
  lemma EvenSplit(balances: seq<Slot>)
    requires IsBalanceSheet(
      [Friend("1", "Alice"), Friend("2", "Bob")],
      [Expense(1, "Alice", 50.0, "tickets"), Expense(2, "Bob", 50.0, "taxi")],
      balances)
    ensures balances == [Slot("Alice", Num(0.0)), Slot("Bob", Num(0.0))]
    ensures Plan(balances) == []
  {
    EvenSplitBalances();
    SheetUnique(
      [Friend("1", "Alice"), Friend("2", "Bob")],
      [Expense(1, "Alice", 50.0, "tickets"), Expense(2, "Bob", 50.0, "taxi")],
      balances,
      [Slot("Alice", Num(0.0)), Slot("Bob", Num(0.0))]);
    assert Debtors(balances) == [];
  }

  /** Carol paid 40 and was then removed: Alice and Bob each owe 20 and Carol's balance is NaN. */
  lemma RemovedPayerBalances()
    ensures IsBalanceSheet(
      [Friend("1", "Alice"), Friend("2", "Bob")],
      [Expense(1, "Carol", 40.0, "groceries")],
      [Slot("Alice", Num(-20.0)), Slot("Bob", Num(-20.0)), Slot("Carol", NaN)])
  {
    var friends := [Friend("1", "Alice"), Friend("2", "Bob")];
    var expenses := [Expense(1, "Carol", 40.0, "groceries")];
    var balances := [Slot("Alice", Num(-20.0)), Slot("Bob", Num(-20.0)), Slot("Carol", NaN)];
    assert Names(friends, 2) == {"Alice", "Bob"};
    assert Payers(expenses, 1) == {"Carol"};
    assert Keys(balances) == {"Alice", "Bob", "Carol"};
    assert NameOrder(friends, 2) == ["Alice", "Bob"];
    assert KeySeq(balances) == ["Alice", "Bob", "Carol"];
  }

  /** So whatever object the page computes for them, nobody is owed and no transfer is proposed. */
  lemma RemovedPayer(balances: seq<Slot>)
    requires IsBalanceSheet(
      [Friend("1", "Alice"), Friend("2", "Bob")],
      [Expense(1, "Carol", 40.0, "groceries")],
      balances)
    ensures balances == [Slot("Alice", Num(-20.0)), Slot("Bob", Num(-20.0)), Slot("Carol", NaN)]
    ensures Plan(balances) == []
  {
    RemovedPayerBalances();
    SheetUnique(
      [Friend("1", "Alice"), Friend("2", "Bob")],
      [Expense(1, "Carol", 40.0, "groceries")],
      balances,
      [Slot("Alice", Num(-20.0)), Slot("Bob", Num(-20.0)), Slot("Carol", NaN)]);
    assert Creditors(balances) == [];
  }
}
