/** `calculateBalances`: every friend's balance relative to an equal split of the total.
    The aggregates below are taken over the first `n` entries of a list, the order in which
    the page's `reduce` and `forEach` passes visit them. */
module Balances {
  import opened Types
  import opened Ledger

  /** `expenses.reduce((sum, expense) => sum + expense.amount, 0)` over the first `n` expenses. */
  function TotalExpense(expenses: seq<Expense>, n: nat): real
    requires n <= |expenses|
  {
    if n == 0 then 0.0 else TotalExpense(expenses, n - 1) + expenses[n - 1].amount
  }

  /** What `name` paid among the first `n` expenses. */
  function PaidBy(expenses: seq<Expense>, n: nat, name: string): real
    requires n <= |expenses|
  {
    if n == 0 then 0.0
    else PaidBy(expenses, n - 1, name) + (if expenses[n - 1].paidBy == name then expenses[n - 1].amount else 0.0)
  }

  /** The payers of the first `n` expenses. */
  function Payers(expenses: seq<Expense>, n: nat): set<string>
    requires n <= |expenses|
  {
    if n == 0 then {} else Payers(expenses, n - 1) + {expenses[n - 1].paidBy}
  }

  /** The names of the first `n` friends. */
  function Names(friends: seq<Friend>, n: nat): set<string>
    requires n <= |friends|
  {
    if n == 0 then {} else Names(friends, n - 1) + {friends[n - 1].name}
  }

  /** The shares debited from `name` by the first `n` friends: one `share` per friend carrying it. */
  function Charged(friends: seq<Friend>, n: nat, name: string, share: real): real
    requires n <= |friends|
  {
    if n == 0 then 0.0
    else Charged(friends, n - 1, name, share) + (if friends[n - 1].name == name then share else 0.0)
  }

  /** Where a written key lands: a new key goes after all others, an existing one stays put. */
  function Appended(order: seq<string>, k: string): seq<string> {
    if k in order then order else order + [k]
  }

  /** The key order after the first pass over `n` friends: names in order of first appearance. */
  function NameOrder(friends: seq<Friend>, n: nat): seq<string>
    requires n <= |friends|
  {
    if n == 0 then [] else Appended(NameOrder(friends, n - 1), friends[n - 1].name)
  }

  /** The key order after the second pass over `n` expenses: the friend names, then the payers
      who are no friend, in order of first appearance. The third pass adds no key. */
  function KeyOrder(friends: seq<Friend>, expenses: seq<Expense>, n: nat): seq<string>
    requires n <= |expenses|
  {
    if n == 0 then NameOrder(friends, |friends|) else Appended(KeyOrder(friends, expenses, n - 1), expenses[n - 1].paidBy)
  }

  predicate DistinctNames(friends: seq<Friend>) {
    forall i, j :: 0 <= i < j < |friends| ==> friends[i].name != friends[j].name
  }

  /** Every expense was paid by someone on the friend list (removing a friend can break this). */
  predicate PayersAreFriends(friends: seq<Friend>, expenses: seq<Expense>) {
    forall e :: e in expenses ==> e.paidBy in Names(friends, |friends|)
  }

  /** `totalExpense / friends.length`. With no friends the page divides by zero, but then the
      share is never used, so the model takes 0 there. */
  function FairShare(friends: seq<Friend>, expenses: seq<Expense>): real {
    if |friends| == 0 then 0.0 else TotalExpense(expenses, |expenses|) / (|friends| as real)
  }

  /** The balance the page ends with under `key`: a friend's name is credited what it paid and
      debited the fair share once per friend carrying it; a payer who is no friend ends at NaN. */
  function Expected(friends: seq<Friend>, expenses: seq<Expense>, key: string): Value {
    if key in Names(friends, |friends|) then
      Num(PaidBy(expenses, |expenses|, key) - Charged(friends, |friends|, key, FairShare(friends, expenses)))
    else NaN
  }

  /** `obj` is the balance object computed from `friends` and `expenses`: one key per friend name
      and per payer, in the order the passes first write them, each holding its expected balance. */
  ghost predicate IsBalanceSheet(friends: seq<Friend>, expenses: seq<Expense>, obj: seq<Slot>) {
    && DistinctKeys(obj)
    && KeySeq(obj) == KeyOrder(friends, expenses, |expenses|)
    && Keys(obj) == Names(friends, |friends|) + Payers(expenses, |expenses|)
    && forall k :: k in Keys(obj) ==> Lookup(obj, k) == Some(Expected(friends, expenses, k))
  }

  /** `balances[key] += amount`, where `undefined + amount` is NaN. */
  function Plus(current: Option<Value>, amount: real): Value {
    match current
    case Some(Num(b)) => Num(b + amount)
    case _ => NaN
  }

  /** `balances[key] -= share`. */
  function Minus(current: Option<Value>, share: real): Value {
    match current
    case Some(Num(b)) => Num(b - share)
    case _ => NaN
  }

  lemma {:induction false} NameInNames(friends: seq<Friend>, i: nat, n: nat)
    requires i < n <= |friends|
    ensures friends[i].name in Names(friends, n)
  {
    if i < n - 1 {
      NameInNames(friends, i, n - 1);
    }
  }

  lemma {:induction false} PayerInPayers(expenses: seq<Expense>, i: nat, n: nat)
    requires i < n <= |expenses|
    ensures expenses[i].paidBy in Payers(expenses, n)
  {
    if i < n - 1 {
      PayerInPayers(expenses, i, n - 1);
    }
  }

  /** After the first pass over `n` friends: every name seen so far holds 0. */
  ghost predicate Zeroed(obj: seq<Slot>, friends: seq<Friend>, n: nat)
    requires n <= |friends|
  {
    && DistinctKeys(obj)
    && Keys(obj) == Names(friends, n)
    && forall k :: k in Keys(obj) ==> Lookup(obj, k) == Some(Num(0.0))
  }

  /** After the second pass over `n` expenses: friends hold what they paid, other payers NaN. */
  ghost predicate Credited(obj: seq<Slot>, friends: seq<Friend>, expenses: seq<Expense>, n: nat)
    requires n <= |expenses|
  {
    && DistinctKeys(obj)
    && Keys(obj) == Names(friends, |friends|) + Payers(expenses, n)
    && forall k :: k in Keys(obj) ==>
      Lookup(obj, k) == Some(if k in Names(friends, |friends|) then Num(PaidBy(expenses, n, k)) else NaN)
  }

  /** After the third pass over `n` friends: friends are also debited one share per friend seen. */
  ghost predicate Debited(obj: seq<Slot>, friends: seq<Friend>, expenses: seq<Expense>, n: nat, share: real)
    requires n <= |friends|
  {
    && DistinctKeys(obj)
    && Keys(obj) == Names(friends, |friends|) + Payers(expenses, |expenses|)
    && forall k :: k in Keys(obj) ==>
      Lookup(obj, k) == Some(
        if k in Names(friends, |friends|) then Num(PaidBy(expenses, |expenses|, k) - Charged(friends, n, k, share))
        else NaN)
  }

  lemma ZeroStep(obj: seq<Slot>, friends: seq<Friend>, n: nat)
    requires n < |friends| && Zeroed(obj, friends, n)
    ensures Zeroed(Put(obj, friends[n].name, Num(0.0)), friends, n + 1)
  {
  }

  /** The second pass starts from the first pass's result. */
  lemma CreditStart(obj: seq<Slot>, friends: seq<Friend>, expenses: seq<Expense>)
    requires Zeroed(obj, friends, |friends|)
    ensures Credited(obj, friends, expenses, 0)
  {
  }

  /** Crediting expense `n` to its payer: a friend's balance grows by the amount, any other
      payer's balance is or becomes NaN. */
  lemma CreditPayer(obj: seq<Slot>, friends: seq<Friend>, expenses: seq<Expense>, n: nat)
    requires n < |expenses| && Credited(obj, friends, expenses, n)
    ensures var e := expenses[n];
      Plus(Lookup(obj, e.paidBy), e.amount) ==
        if e.paidBy in Names(friends, |friends|) then Num(PaidBy(expenses, n + 1, e.paidBy)) else NaN
  {
  }

  lemma CreditStep(obj: seq<Slot>, friends: seq<Friend>, expenses: seq<Expense>, n: nat)
    requires n < |expenses| && Credited(obj, friends, expenses, n)
    ensures var e := expenses[n];
      Credited(Put(obj, e.paidBy, Plus(Lookup(obj, e.paidBy), e.amount)), friends, expenses, n + 1)
  {
    var e := expenses[n];
    var names := Names(friends, |friends|);
    var obj' := Put(obj, e.paidBy, Plus(Lookup(obj, e.paidBy), e.amount));
    CreditPayer(obj, friends, expenses, n);
    forall k | k in Keys(obj')
      ensures Lookup(obj', k) == Some(if k in names then Num(PaidBy(expenses, n + 1, k)) else NaN)
    {
      if k != e.paidBy {
        assert PaidBy(expenses, n + 1, k) == PaidBy(expenses, n, k);
      }
    }
  }

  /** The third pass starts from the second pass's result. */
  lemma DebitStart(obj: seq<Slot>, friends: seq<Friend>, expenses: seq<Expense>, share: real)
    requires Credited(obj, friends, expenses, |expenses|)
    ensures Debited(obj, friends, expenses, 0, share)
  {
  }

  /** The third pass ends with the balance sheet. */
  lemma DebitEnd(obj: seq<Slot>, friends: seq<Friend>, expenses: seq<Expense>)
    requires Debited(obj, friends, expenses, |friends|, FairShare(friends, expenses))
    requires KeySeq(obj) == KeyOrder(friends, expenses, |expenses|)
    ensures IsBalanceSheet(friends, expenses, obj)
  {
  }

  /** Debiting friend `n` takes one more share from the balance under its name. */
  lemma DebitFriend(obj: seq<Slot>, friends: seq<Friend>, expenses: seq<Expense>, n: nat, share: real)
    requires n < |friends| && Debited(obj, friends, expenses, n, share)
    ensures var name := friends[n].name;
      Minus(Lookup(obj, name), share) == Num(PaidBy(expenses, |expenses|, name) - Charged(friends, n + 1, name, share))
  {
    NameInNames(friends, n, |friends|);
  }

  /** Debiting friend `n` leaves the other names' balances and debits as they were. */
  lemma DebitOther(obj: seq<Slot>, friends: seq<Friend>, n: nat, share: real, k: string, obj': seq<Slot>)
    requires n < |friends| && k != friends[n].name
    requires obj' == Put(obj, friends[n].name, Minus(Lookup(obj, friends[n].name), share))
    ensures Lookup(obj', k) == Lookup(obj, k)
    ensures Charged(friends, n + 1, k, share) == Charged(friends, n, k, share)
  {
  }

  lemma DebitStep(obj: seq<Slot>, friends: seq<Friend>, expenses: seq<Expense>, n: nat, share: real)
    requires n < |friends| && Debited(obj, friends, expenses, n, share)
    ensures var f := friends[n];
      Debited(Put(obj, f.name, Minus(Lookup(obj, f.name), share)), friends, expenses, n + 1, share)
  {
    var f := friends[n];
    var names := Names(friends, |friends|);
    var obj' := Put(obj, f.name, Minus(Lookup(obj, f.name), share));
    DebitFriend(obj, friends, expenses, n, share);
    NameInNames(friends, n, |friends|);
    forall k | k in Keys(obj')
      ensures Lookup(obj', k) == Some(
        if k in names then Num(PaidBy(expenses, |expenses|, k) - Charged(friends, n + 1, k, share)) else NaN)
    {
      if k != f.name {
        DebitOther(obj, friends, n, share, k, obj');
      }
    }
  }

  /** Debiting friend `n` writes a key the object already holds, so the key order stays. */
  lemma DebitOrder(obj: seq<Slot>, friends: seq<Friend>, expenses: seq<Expense>, n: nat, share: real)
    requires n < |friends| && Debited(obj, friends, expenses, n, share)
    ensures var f := friends[n];
      KeySeq(Put(obj, f.name, Minus(Lookup(obj, f.name), share))) == KeySeq(obj)
  {
    var f := friends[n];
    NameInNames(friends, n, |friends|);
    KeySeqKeys(obj, f.name);
    PutOrder(obj, f.name, Minus(Lookup(obj, f.name), share));
  }

  /** The page's three passes: zero every friend, credit every payer, debit every friend. */
  method CalculateBalances(friends: seq<Friend>, expenses: seq<Expense>) returns (balances: seq<Slot>)
    ensures IsBalanceSheet(friends, expenses, balances)
  {
    balances := ZeroFriends(friends);
    CreditStart(balances, friends, expenses);

    var fairShare := FairShare(friends, expenses);

    balances := CreditPayers(balances, friends, expenses);
    DebitStart(balances, friends, expenses, fairShare);
    balances := DebitFriends(balances, friends, expenses, fairShare);
    DebitEnd(balances, friends, expenses);
  }

  /** `friends.forEach(friend => balances[friend.name] = 0)` on a fresh object. */
  method ZeroFriends(friends: seq<Friend>) returns (balances: seq<Slot>)
    ensures Zeroed(balances, friends, |friends|)
    ensures KeySeq(balances) == NameOrder(friends, |friends|)
  {
    balances := [];
    for n := 0 to |friends|
      invariant Zeroed(balances, friends, n)
      invariant KeySeq(balances) == NameOrder(friends, n)
    {
      ZeroStep(balances, friends, n);
      PutOrder(balances, friends[n].name, Num(0.0));
      balances := Put(balances, friends[n].name, Num(0.0));
    }
  }

  /** `expenses.forEach(expense => balances[expense.paidBy] += expense.amount)`. */
  method CreditPayers(start: seq<Slot>, friends: seq<Friend>, expenses: seq<Expense>) returns (balances: seq<Slot>)
    requires Credited(start, friends, expenses, 0) && KeySeq(start) == KeyOrder(friends, expenses, 0)
    ensures Credited(balances, friends, expenses, |expenses|)
    ensures KeySeq(balances) == KeyOrder(friends, expenses, |expenses|)
  {
    balances := start;
    for n := 0 to |expenses|
      invariant Credited(balances, friends, expenses, n)
      invariant KeySeq(balances) == KeyOrder(friends, expenses, n)
    {
      CreditStep(balances, friends, expenses, n);
      PutOrder(balances, expenses[n].paidBy, Plus(Lookup(balances, expenses[n].paidBy), expenses[n].amount));
      var expense := expenses[n];
      balances := Put(balances, expense.paidBy, Plus(Lookup(balances, expense.paidBy), expense.amount));
    }
  }

  /** `friends.forEach(friend => balances[friend.name] -= fairShare)`. */
  method DebitFriends(start: seq<Slot>, friends: seq<Friend>, expenses: seq<Expense>, fairShare: real)
    returns (balances: seq<Slot>)
    requires Debited(start, friends, expenses, 0, fairShare)
    ensures Debited(balances, friends, expenses, |friends|, fairShare)
    ensures KeySeq(balances) == KeySeq(start)
  {
    balances := start;
    for n := 0 to |friends|
      invariant Debited(balances, friends, expenses, n, fairShare)
      invariant KeySeq(balances) == KeySeq(start)
    {
      DebitStep(balances, friends, expenses, n, fairShare);
      DebitOrder(balances, friends, expenses, n, fairShare);
      var friend := friends[n];
      balances := Put(balances, friend.name, Minus(Lookup(balances, friend.name), fairShare));
    }
  }

  /** Sum over the slots of `obj` of what each key paid among the first `n` expenses. */
  function SumPaid(obj: seq<Slot>, expenses: seq<Expense>, n: nat): real
    requires n <= |expenses|
  {
    if obj == [] then 0.0 else PaidBy(expenses, n, obj[0].key) + SumPaid(obj[1..], expenses, n)
  }

  /** Sum over the slots of `obj` of the shares each key was debited by the first `n` friends. */
  function SumCharged(obj: seq<Slot>, friends: seq<Friend>, n: nat, share: real): real
    requires n <= |friends|
  {
    if obj == [] then 0.0 else Charged(friends, n, obj[0].key, share) + SumCharged(obj[1..], friends, n, share)
  }

  lemma {:induction false} SumPaidStep(obj: seq<Slot>, expenses: seq<Expense>, n: nat)
    requires DistinctKeys(obj) && n < |expenses|
    ensures SumPaid(obj, expenses, n + 1) ==
      SumPaid(obj, expenses, n) + (if expenses[n].paidBy in Keys(obj) then expenses[n].amount else 0.0)
  {
    if obj != [] {
      SumPaidStep(obj[1..], expenses, n);
    }
  }

  lemma {:induction false} SumChargedStep(obj: seq<Slot>, friends: seq<Friend>, n: nat, share: real)
    requires DistinctKeys(obj) && n < |friends|
    ensures SumCharged(obj, friends, n + 1, share) ==
      SumCharged(obj, friends, n, share) + (if friends[n].name in Keys(obj) then share else 0.0)
  {
    if obj != [] {
      SumChargedStep(obj[1..], friends, n, share);
    }
  }

  lemma {:induction false} SumPaidOfNone(obj: seq<Slot>, expenses: seq<Expense>)
    ensures SumPaid(obj, expenses, 0) == 0.0
  {
    if obj != [] {
      SumPaidOfNone(obj[1..], expenses);
    }
  }

  lemma {:induction false} SumChargedOfNone(obj: seq<Slot>, friends: seq<Friend>, share: real)
    ensures SumCharged(obj, friends, 0, share) == 0.0
  {
    if obj != [] {
      SumChargedOfNone(obj[1..], friends, share);
    }
  }

  /** Over keys that hold every payer once, the amounts paid add up to the total. */
  lemma {:induction false} SumPaidIsTotal(obj: seq<Slot>, expenses: seq<Expense>, n: nat)
    requires DistinctKeys(obj) && n <= |expenses| && Payers(expenses, n) <= Keys(obj)
    ensures SumPaid(obj, expenses, n) == TotalExpense(expenses, n)
  {
    if n == 0 {
      SumPaidOfNone(obj, expenses);
    } else {
      SumPaidStep(obj, expenses, n - 1);
      SumPaidIsTotal(obj, expenses, n - 1);
    }
  }

  /** Over keys that hold every friend name once, the debits add up to one share per friend. */
  lemma {:induction false} SumChargedIsHeadCount(obj: seq<Slot>, friends: seq<Friend>, n: nat, share: real)
    requires DistinctKeys(obj) && n <= |friends| && Names(friends, n) <= Keys(obj)
    ensures SumCharged(obj, friends, n, share) == (n as real) * share
  {
    if n == 0 {
      SumChargedOfNone(obj, friends, share);
    } else {
      SumChargedStep(obj, friends, n - 1, share);
      SumChargedIsHeadCount(obj, friends, n - 1, share);
    }
  }

  /** When every slot holds what its key paid minus what it was debited, so does the sum. */
  lemma {:induction false} SheetSum(obj: seq<Slot>, friends: seq<Friend>, expenses: seq<Expense>, share: real)
    requires forall s :: s in obj ==>
      s.value == Num(PaidBy(expenses, |expenses|, s.key) - Charged(friends, |friends|, s.key, share))
    ensures NumericSum(obj) ==
      SumPaid(obj, expenses, |expenses|) - SumCharged(obj, friends, |friends|, share)
  {
    if obj != [] {
      assert obj[0] in obj;
      SheetSum(obj[1..], friends, expenses, share);
    }
  }

  lemma {:induction false} PayersInNames(friends: seq<Friend>, expenses: seq<Expense>, n: nat)
    requires n <= |expenses| && PayersAreFriends(friends, expenses)
    ensures Payers(expenses, n) <= Names(friends, |friends|)
  {
    if n > 0 {
      PayersInNames(friends, expenses, n - 1);
      assert expenses[n - 1] in expenses;
    }
  }

  /** Conservation: with at least one friend and every payer a friend, every balance is a number
      and the balances sum to exactly zero. Distinct names are not needed: a name shared by two
      friends is one key, debited twice. */
  lemma BalancesSumToZero(friends: seq<Friend>, expenses: seq<Expense>, obj: seq<Slot>)
    requires IsBalanceSheet(friends, expenses, obj)
    requires |friends| > 0 && PayersAreFriends(friends, expenses)
    ensures AllNumbers(obj)
    ensures NumericSum(obj) == 0.0
  {
    var names, total, share := Names(friends, |friends|), TotalExpense(expenses, |expenses|), FairShare(friends, expenses);
    assert Payers(expenses, |expenses|) <= names by {
      PayersInNames(friends, expenses, |expenses|);
    }
    assert forall s :: s in obj ==>
      s.value == Num(PaidBy(expenses, |expenses|, s.key) - Charged(friends, |friends|, s.key, share)) by {
      SheetSlots(friends, expenses, obj, share);
    }
    assert NumericSum(obj) == total - (|friends| as real) * share by {
      SheetTotals(friends, expenses, obj, share);
    }
    assert (|friends| as real) * share == total by {
      ShareTimesCount(total, |friends|, share);
    }
  }

  /** Over a sheet whose keys are the friend names, the balances sum to the total paid minus
      one share per friend. */
  lemma SheetTotals(friends: seq<Friend>, expenses: seq<Expense>, obj: seq<Slot>, share: real)
    requires DistinctKeys(obj) && Keys(obj) == Names(friends, |friends|)
    requires Payers(expenses, |expenses|) <= Names(friends, |friends|)
    requires forall s :: s in obj ==>
      s.value == Num(PaidBy(expenses, |expenses|, s.key) - Charged(friends, |friends|, s.key, share))
    ensures NumericSum(obj) == TotalExpense(expenses, |expenses|) - (|friends| as real) * share
  {
    assert NumericSum(obj) == SumPaid(obj, expenses, |expenses|) - SumCharged(obj, friends, |friends|, share) by {
      SheetSum(obj, friends, expenses, share);
    }
    assert SumPaid(obj, expenses, |expenses|) == TotalExpense(expenses, |expenses|) by {
      SumPaidIsTotal(obj, expenses, |expenses|);
    }
    assert SumCharged(obj, friends, |friends|, share) == (|friends| as real) * share by {
      SumChargedIsHeadCount(obj, friends, |friends|, share);
    }
  }

  /** When every key is a friend name, every slot holds its numeric expected balance. */
  lemma SheetSlots(friends: seq<Friend>, expenses: seq<Expense>, obj: seq<Slot>, share: real)
    requires IsBalanceSheet(friends, expenses, obj)
    requires Keys(obj) <= Names(friends, |friends|) && share == FairShare(friends, expenses)
    ensures forall s :: s in obj ==>
      s.value == Num(PaidBy(expenses, |expenses|, s.key) - Charged(friends, |friends|, s.key, share))
  {
    forall s | s in obj
      ensures s.value == Num(PaidBy(expenses, |expenses|, s.key) - Charged(friends, |friends|, s.key, share))
    {
      SlotKeyInKeys(obj, s);
      LookupSlot(obj, s);
    }
  }

  lemma ShareTimesCount(total: real, n: nat, share: real)
    requires n > 0 && share == total / (n as real)
    ensures (n as real) * share == total
  {
  }

  /** A payer who is not on the friend list (say, after `removeFriend`) ends at NaN. */
  lemma OrphanPayerIsNaN(friends: seq<Friend>, expenses: seq<Expense>, obj: seq<Slot>, i: nat)
    requires IsBalanceSheet(friends, expenses, obj)
    requires i < |expenses| && expenses[i].paidBy !in Names(friends, |friends|)
    ensures Lookup(obj, expenses[i].paidBy) == Some(NaN)
  {
    PayerInPayers(expenses, i, |expenses|);
  }

  lemma {:induction false} NameIndex(friends: seq<Friend>, n: nat, name: string) returns (i: nat)
    requires n <= |friends| && name in Names(friends, n)
    ensures i < n && friends[i].name == name
  {
    if name in Names(friends, n - 1) {
      i := NameIndex(friends, n - 1, name);
    } else {
      i := n - 1;
    }
  }

  /** With distinct names, a friend's name is debited exactly one share. */
  lemma {:induction false} DistinctNameCharged(friends: seq<Friend>, n: nat, name: string, share: real)
    requires DistinctNames(friends) && n <= |friends|
    ensures Charged(friends, n, name, share) == if name in Names(friends, n) then share else 0.0
  {
    if n > 0 {
      DistinctNameCharged(friends, n - 1, name, share);
      if friends[n - 1].name == name && name in Names(friends, n - 1) {
        var i := NameIndex(friends, n - 1, name);
        assert false;
      }
    }
  }

  /** With distinct names, each friend's balance is what it paid minus `total / |friends|`. */
  lemma FriendBalance(friends: seq<Friend>, expenses: seq<Expense>, obj: seq<Slot>, i: nat)
    requires IsBalanceSheet(friends, expenses, obj)
    requires DistinctNames(friends) && i < |friends|
    ensures Lookup(obj, friends[i].name) == Some(Num(
      PaidBy(expenses, |expenses|, friends[i].name) - TotalExpense(expenses, |expenses|) / (|friends| as real)))
  {
    NameInNames(friends, i, |friends|);
    DistinctNameCharged(friends, |friends|, friends[i].name, FairShare(friends, expenses));
  }

  /** There are no more names than friends. */
  lemma {:induction false} NamesCount(friends: seq<Friend>, n: nat)
    requires n <= |friends|
    ensures |Names(friends, n)| <= n
  {
    if n > 0 {
      NamesCount(friends, n - 1);
    }
  }

  /** The first pass writes exactly the friend names as keys. */
  lemma {:induction false} NameOrderNames(friends: seq<Friend>, n: nat, x: string)
    requires n <= |friends|
    ensures x in NameOrder(friends, n) <==> x in Names(friends, n)
  {
    if n > 0 {
      NameOrderNames(friends, n - 1, x);
    }
  }

  /** With distinct names the first pass writes one key per friend, in friend order. */
  lemma {:induction false} NameOrderOfDistinct(friends: seq<Friend>, n: nat)
    requires DistinctNames(friends) && n <= |friends|
    ensures |NameOrder(friends, n)| == n
    ensures forall i :: 0 <= i < n ==> NameOrder(friends, n)[i] == friends[i].name
  {
    if n > 0 {
      NameOrderOfDistinct(friends, n - 1);
    }
  }

  /** The keys of the balance object start with the friend names; every later key is a payer
      who is no friend. */
  lemma {:induction false} FriendsFirst(friends: seq<Friend>, expenses: seq<Expense>, n: nat)
    requires n <= |expenses|
    ensures |NameOrder(friends, |friends|)| <= |KeyOrder(friends, expenses, n)|
    ensures KeyOrder(friends, expenses, n)[..|NameOrder(friends, |friends|)|] == NameOrder(friends, |friends|)
    ensures forall i :: |NameOrder(friends, |friends|)| <= i < |KeyOrder(friends, expenses, n)| ==>
      KeyOrder(friends, expenses, n)[i] !in Names(friends, |friends|) && KeyOrder(friends, expenses, n)[i] in Payers(expenses, n)
  {
    if n > 0 {
      FriendsFirst(friends, expenses, n - 1);
      var names := NameOrder(friends, |friends|);
      var order := KeyOrder(friends, expenses, n - 1);
      var k := expenses[n - 1].paidBy;
      if k !in order {
        assert (order + [k])[..|names|] == order[..|names|];
        NameOrderNames(friends, |friends|, k);
      }
    }
  }

  /** The balance object is determined by the friends and the expenses, key order included. */
  lemma SheetUnique(friends: seq<Friend>, expenses: seq<Expense>, a: seq<Slot>, b: seq<Slot>)
    requires IsBalanceSheet(friends, expenses, a) && IsBalanceSheet(friends, expenses, b)
    ensures a == b
  {
    forall k ensures Lookup(a, k) == Lookup(b, k) {
      if k in Keys(a) {
        assert k in Keys(b);
      }
    }
    SameObject(a, b);
  }
}
