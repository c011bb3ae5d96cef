/** `optimizeSettlements`: from the balance object to a list of transfers that settles it. */
module Settlements {
  import opened Types
  import opened Ledger

  /** One `[name, balance]` pair of `Object.entries(balances)`. */
  datatype Party = Party(name: string, balance: real)

  function Sum(ps: seq<Party>): real {
    if ps == [] then 0.0 else ps[0].balance + Sum(ps[1..])
  }

  function NameSet(ps: seq<Party>): set<string> {
    if ps == [] then {} else {ps[0].name} + NameSet(ps[1..])
  }

  /** The total balance of the parties named `x` (at most one in what the page builds). */
  function BalanceOf(ps: seq<Party>, x: string): real {
    if ps == [] then 0.0 else (if ps[0].name == x then ps[0].balance else 0.0) + BalanceOf(ps[1..], x)
  }

  predicate AllNegative(ps: seq<Party>) {
    forall p :: p in ps ==> p.balance < 0.0
  }

  predicate AllPositive(ps: seq<Party>) {
    forall p :: p in ps ==> p.balance > 0.0
  }

  /** The numeric balance stored under `x`; a missing key or a NaN counts as 0. */
  function ValueOf(obj: seq<Slot>, x: string): real {
    match Lookup(obj, x)
    case Some(Num(v)) => v
    case _ => 0.0
  }

  /** `x` holds a negative balance: it owes money to the group. */
  predicate Owes(obj: seq<Slot>, x: string) {
    ValueOf(obj, x) < 0.0
  }

  /** `x` holds a positive balance: the group owes it money. */
  predicate IsOwed(obj: seq<Slot>, x: string) {
    ValueOf(obj, x) > 0.0
  }

  /** The entries whose balance is `< 0`, in object order. A NaN balance is neither. */
  function Debtors(obj: seq<Slot>): (r: seq<Party>)
    ensures forall p :: p in r <==> p.balance < 0.0 && Slot(p.name, Num(p.balance)) in obj
  {
    if obj == [] then []
    else if obj[0].value.Num? && obj[0].value.v < 0.0 then [Party(obj[0].key, obj[0].value.v)] + Debtors(obj[1..])
    else Debtors(obj[1..])
  }

  /** The entries whose balance is `> 0`, in object order. */
  function Creditors(obj: seq<Slot>): (r: seq<Party>)
    ensures forall p :: p in r <==> p.balance > 0.0 && Slot(p.name, Num(p.balance)) in obj
  {
    if obj == [] then []
    else if obj[0].value.Num? && obj[0].value.v > 0.0 then [Party(obj[0].key, obj[0].value.v)] + Creditors(obj[1..])
    else Creditors(obj[1..])
  }

  /** `a` may come before `b` under the comparator `a[1] - b[1]` (ascending) or
      `b[1] - a[1]` (descending). */
  predicate Before(a: Party, b: Party, descending: bool) {
    if descending then a.balance >= b.balance else a.balance <= b.balance
  }

  predicate Sorted(ps: seq<Party>, descending: bool) {
    forall i, j :: 0 <= i < j < |ps| ==> Before(ps[i], ps[j], descending)
  }

  /** Inserts `p` in front of the first element it may precede. */
  function Insert(p: Party, ps: seq<Party>, descending: bool): seq<Party> {
    if ps == [] || Before(p, ps[0], descending) then [p] + ps
    else [ps[0]] + Insert(p, ps[1..], descending)
  }

  /** `Array.prototype.sort` with the page's comparators: a stable sort, here insertion sort. */
  function Sort(ps: seq<Party>, descending: bool): seq<Party> {
    if ps == [] then [] else Insert(ps[0], Sort(ps[1..], descending), descending)
  }

  /** The totals of a list with a party in front. */
  lemma Cons(p: Party, ps: seq<Party>)
    ensures Sum([p] + ps) == p.balance + Sum(ps)
    ensures NameSet([p] + ps) == {p.name} + NameSet(ps)
    ensures forall x :: BalanceOf([p] + ps, x) == (if p.name == x then p.balance else 0.0) + BalanceOf(ps, x)
  {
    assert ([p] + ps)[1..] == ps;
  }

  lemma {:induction false} InsertPermutes(p: Party, ps: seq<Party>, descending: bool)
    ensures multiset(Insert(p, ps, descending)) == multiset(ps) + multiset{p}
  {
    if ps != [] && !Before(p, ps[0], descending) {
      InsertPermutes(p, ps[1..], descending);
      assert ps == [ps[0]] + ps[1..];
    }
  }

  lemma {:induction false} InsertSorted(p: Party, ps: seq<Party>, descending: bool)
    requires Sorted(ps, descending)
    ensures Sorted(Insert(p, ps, descending), descending)
  {
    if ps != [] && !Before(p, ps[0], descending) {
      InsertSorted(p, ps[1..], descending);
      InsertPermutes(p, ps[1..], descending);
      var r := Insert(p, ps[1..], descending);
      forall q | q in r ensures Before(ps[0], q, descending) {
        assert q in multiset(r);
      }
    }
  }

  lemma {:induction false} InsertTotals(p: Party, ps: seq<Party>, descending: bool)
    ensures Sum(Insert(p, ps, descending)) == p.balance + Sum(ps)
    ensures NameSet(Insert(p, ps, descending)) == {p.name} + NameSet(ps)
    ensures forall x ::
      BalanceOf(Insert(p, ps, descending), x) == (if p.name == x then p.balance else 0.0) + BalanceOf(ps, x)
  {
    Cons(p, ps);
    if ps != [] && !Before(p, ps[0], descending) {
      InsertTotals(p, ps[1..], descending);
      Cons(ps[0], Insert(p, ps[1..], descending));
      Cons(ps[0], ps[1..]);
      assert ps == [ps[0]] + ps[1..];
    }
  }

  /** The sort yields an ordered permutation of its input. */
  lemma {:induction false} SortSortsPermutation(ps: seq<Party>, descending: bool)
    ensures Sorted(Sort(ps, descending), descending)
    ensures multiset(Sort(ps, descending)) == multiset(ps)
  {
    if ps != [] {
      SortSortsPermutation(ps[1..], descending);
      InsertSorted(ps[0], Sort(ps[1..], descending), descending);
      InsertPermutes(ps[0], Sort(ps[1..], descending), descending);
      assert ps == [ps[0]] + ps[1..];
    }
  }

  /** Sorting keeps the names, the total and each name's balance. */
  lemma {:induction false} SortTotals(ps: seq<Party>, descending: bool)
    ensures Sum(Sort(ps, descending)) == Sum(ps)
    ensures NameSet(Sort(ps, descending)) == NameSet(ps)
    ensures forall x :: BalanceOf(Sort(ps, descending), x) == BalanceOf(ps, x)
  {
    if ps != [] {
      SortTotals(ps[1..], descending);
      InsertTotals(ps[0], Sort(ps[1..], descending), descending);
    }
  }

  function Min(a: real, b: real): real {
    if a <= b then a else b
  }

  /** The transfer one loop step pushes: `Math.min(-debtAmount, creditAmount)` from the
      debtor to the creditor, when it is positive. */
  function Paid(d: Party, c: Party): seq<Settlement> {
    var amount := Min(-d.balance, c.balance);
    if amount > 0.0 then [Settlement(d.name, c.name, amount)] else []
  }

  /** The two-cursor loop of `optimizeSettlements` as a recursion: `ds` and `cs` are what is
      left of the debtors and creditors from the cursors on, the heads already overwritten
      with their remaining balances. */
  function Greedy(ds: seq<Party>, cs: seq<Party>): seq<Settlement>
    decreases |ds| + |cs|
  {
    if ds == [] || cs == [] then []
    else
      var d, c := ds[0], cs[0];
      if -d.balance < c.balance then
        Paid(d, c) + Greedy(ds[1..], [Party(c.name, c.balance + d.balance)] + cs[1..])
      else if -d.balance > c.balance then
        Paid(d, c) + Greedy([Party(d.name, d.balance + c.balance)] + ds[1..], cs[1..])
      else
        Paid(d, c) + Greedy(ds[1..], cs[1..])
  }

  /** What is left of the debtors and creditors, from the cursors on, when the loop of `Greedy`
      stops: at least one of the two is empty. */
  function GreedyLeft(ds: seq<Party>, cs: seq<Party>): (r: (seq<Party>, seq<Party>))
    ensures r.0 == [] || r.1 == []
    decreases |ds| + |cs|
  {
    if ds == [] || cs == [] then (ds, cs)
    else
      var d, c := ds[0], cs[0];
      if -d.balance < c.balance then GreedyLeft(ds[1..], [Party(c.name, c.balance + d.balance)] + cs[1..])
      else if -d.balance > c.balance then GreedyLeft([Party(d.name, d.balance + c.balance)] + ds[1..], cs[1..])
      else GreedyLeft(ds[1..], cs[1..])
  }

  /** One step of `Greedy` when the debt is the smaller side: the creditor stays, reduced. */
  lemma GreedyKeepsCreditor(ds: seq<Party>, cs: seq<Party>, ds': seq<Party>, cs': seq<Party>)
    requires ds != [] && cs != [] && -ds[0].balance < cs[0].balance
    requires ds' == ds[1..] && cs' == [Party(cs[0].name, cs[0].balance + ds[0].balance)] + cs[1..]
    ensures Greedy(ds, cs) == Paid(ds[0], cs[0]) + Greedy(ds', cs')
    ensures GreedyLeft(ds, cs) == GreedyLeft(ds', cs')
  {
  }

  /** One step of `Greedy` when the credit is the smaller side: the debtor stays, reduced. */
  lemma GreedyKeepsDebtor(ds: seq<Party>, cs: seq<Party>, ds': seq<Party>, cs': seq<Party>)
    requires ds != [] && cs != [] && -ds[0].balance > cs[0].balance
    requires ds' == [Party(ds[0].name, ds[0].balance + cs[0].balance)] + ds[1..] && cs' == cs[1..]
    ensures Greedy(ds, cs) == Paid(ds[0], cs[0]) + Greedy(ds', cs')
    ensures GreedyLeft(ds, cs) == GreedyLeft(ds', cs')
  {
  }

  /** One step of `Greedy` when debt and credit are equal: both sides move on. */
  lemma GreedyDropsBoth(ds: seq<Party>, cs: seq<Party>, ds': seq<Party>, cs': seq<Party>)
    requires ds != [] && cs != [] && -ds[0].balance == cs[0].balance
    requires ds' == ds[1..] && cs' == cs[1..]
    ensures Greedy(ds, cs) == Paid(ds[0], cs[0]) + Greedy(ds', cs')
    ensures GreedyLeft(ds, cs) == GreedyLeft(ds', cs')
  {
  }

  /** What `x` pays out in `plan`. */
  function Outflow(plan: seq<Settlement>, x: string): real {
    if plan == [] then 0.0 else (if plan[0].from == x then plan[0].amount else 0.0) + Outflow(plan[1..], x)
  }

  /** What `x` receives in `plan`. */
  function Inflow(plan: seq<Settlement>, x: string): real {
    if plan == [] then 0.0 else (if plan[0].to == x then plan[0].amount else 0.0) + Inflow(plan[1..], x)
  }

  /** Every transfer is positive and goes from a debtor's name to a creditor's name. */
  lemma {:induction false} GreedyShape(ds: seq<Party>, cs: seq<Party>)
    ensures forall s :: s in Greedy(ds, cs) ==>
      s.amount > 0.0 && s.from in NameSet(ds) && s.to in NameSet(cs)
    decreases |ds| + |cs|
  {
    if ds != [] && cs != [] {
      var d, c := ds[0], cs[0];
      Cons(d, ds[1..]);
      Cons(c, cs[1..]);
      assert ds == [d] + ds[1..] && cs == [c] + cs[1..];
      if -d.balance < c.balance {
        var cs' := [Party(c.name, c.balance + d.balance)] + cs[1..];
        GreedyKeepsCreditor(ds, cs, ds[1..], cs');
        GreedyShape(ds[1..], cs');
        Cons(cs'[0], cs[1..]);
      } else if -d.balance > c.balance {
        var ds' := [Party(d.name, d.balance + c.balance)] + ds[1..];
        GreedyKeepsDebtor(ds, cs, ds', cs[1..]);
        GreedyShape(ds', cs[1..]);
        Cons(ds'[0], ds[1..]);
      } else {
        GreedyDropsBoth(ds, cs, ds[1..], cs[1..]);
        GreedyShape(ds[1..], cs[1..]);
      }
    }
  }

  /** With `m` debtors and `n` creditors the loop pushes at most `m + n - 1` transfers:
      every step retires at least one of them, and the last step retires both. */
  lemma {:induction false} GreedyLength(ds: seq<Party>, cs: seq<Party>)
    ensures |Greedy(ds, cs)| <= if ds == [] || cs == [] then 0 else |ds| + |cs| - 1
    decreases |ds| + |cs|
  {
    if ds != [] && cs != [] {
      var d, c := ds[0], cs[0];
      if -d.balance < c.balance {
        var cs' := [Party(c.name, c.balance + d.balance)] + cs[1..];
        GreedyKeepsCreditor(ds, cs, ds[1..], cs');
        GreedyLength(ds[1..], cs');
      } else if -d.balance > c.balance {
        var ds' := [Party(d.name, d.balance + c.balance)] + ds[1..];
        GreedyKeepsDebtor(ds, cs, ds', cs[1..]);
        GreedyLength(ds', cs[1..]);
      } else {
        GreedyDropsBoth(ds, cs, ds[1..], cs[1..]);
        GreedyLength(ds[1..], cs[1..]);
      }
    }
  }

  lemma {:induction false} PositiveSum(ps: seq<Party>)
    requires AllPositive(ps) && ps != []
    ensures Sum(ps) > 0.0
  {
    if ps[1..] != [] {
      assert ps[1] in ps;
      PositiveSum(ps[1..]);
    } else {
      assert ps[0] in ps;
    }
  }

  lemma {:induction false} NegativeSum(ps: seq<Party>)
    requires AllNegative(ps) && ps != []
    ensures Sum(ps) < 0.0
  {
    if ps[1..] != [] {
      assert ps[1] in ps;
      NegativeSum(ps[1..]);
    } else {
      assert ps[0] in ps;
    }
  }

  lemma OutInCons(s: Settlement, plan: seq<Settlement>, x: string)
    ensures Outflow([s] + plan, x) == (if s.from == x then s.amount else 0.0) + Outflow(plan, x)
    ensures Inflow([s] + plan, x) == (if s.to == x then s.amount else 0.0) + Inflow(plan, x)
  {
    assert ([s] + plan)[1..] == plan;
  }

  /** The loop settles everyone: when the debts and credits cancel out, each name's balance
      plus what it pays out minus what it receives is zero. */
  lemma {:induction false} GreedySettles(ds: seq<Party>, cs: seq<Party>, x: string)
    requires AllNegative(ds) && AllPositive(cs) && Sum(ds) + Sum(cs) == 0.0
    ensures BalanceOf(ds, x) + BalanceOf(cs, x) + Outflow(Greedy(ds, cs), x) - Inflow(Greedy(ds, cs), x) == 0.0
    decreases |ds| + |cs|
  {
    if ds == [] {
      if cs != [] {
        PositiveSum(cs);
      }
    } else if cs == [] {
      NegativeSum(ds);
    } else {
      var d, c := ds[0], cs[0];
      assert d in ds && c in cs;
      Cons(d, ds[1..]);
      Cons(c, cs[1..]);
      assert ds == [d] + ds[1..] && cs == [c] + cs[1..];
      var s := Settlement(d.name, c.name, Min(-d.balance, c.balance));
      assert Paid(d, c) == [s];
      var rest;
      if -d.balance < c.balance {
        var cs' := [Party(c.name, c.balance + d.balance)] + cs[1..];
        GreedyKeepsCreditor(ds, cs, ds[1..], cs');
        Cons(cs'[0], cs[1..]);
        GreedySettles(ds[1..], cs', x);
        rest := Greedy(ds[1..], cs');
      } else if -d.balance > c.balance {
        var ds' := [Party(d.name, d.balance + c.balance)] + ds[1..];
        GreedyKeepsDebtor(ds, cs, ds', cs[1..]);
        Cons(ds'[0], ds[1..]);
        GreedySettles(ds', cs[1..], x);
        rest := Greedy(ds', cs[1..]);
      } else {
        GreedyDropsBoth(ds, cs, ds[1..], cs[1..]);
        GreedySettles(ds[1..], cs[1..], x);
        rest := Greedy(ds[1..], cs[1..]);
      }
      OutInCons(s, rest, x);
    }
  }

  /** When the debts and credits cancel out, the two cursors run off the ends of their lists
      together: neither a debtor nor a creditor is left over. */
  lemma {:induction false} GreedyRunsOut(ds: seq<Party>, cs: seq<Party>)
    requires AllNegative(ds) && AllPositive(cs) && Sum(ds) + Sum(cs) == 0.0
    ensures GreedyLeft(ds, cs) == ([], [])
    decreases |ds| + |cs|
  {
    if ds == [] {
      if cs != [] {
        PositiveSum(cs);
      }
    } else if cs == [] {
      NegativeSum(ds);
    } else {
      var d, c := ds[0], cs[0];
      assert d in ds && c in cs;
      Cons(d, ds[1..]);
      Cons(c, cs[1..]);
      assert ds == [d] + ds[1..] && cs == [c] + cs[1..];
      if -d.balance < c.balance {
        var cs' := [Party(c.name, c.balance + d.balance)] + cs[1..];
        GreedyKeepsCreditor(ds, cs, ds[1..], cs');
        Cons(cs'[0], cs[1..]);
        GreedyRunsOut(ds[1..], cs');
      } else if -d.balance > c.balance {
        var ds' := [Party(d.name, d.balance + c.balance)] + ds[1..];
        GreedyKeepsDebtor(ds, cs, ds', cs[1..]);
        Cons(ds'[0], ds[1..]);
        GreedyRunsOut(ds', cs[1..]);
      } else {
        GreedyDropsBoth(ds, cs, ds[1..], cs[1..]);
        GreedyRunsOut(ds[1..], cs[1..]);
      }
    }
  }

  /** While both sides are non-empty the loop pushes, and its first transfer goes from the
      head debtor to the head creditor. */
  lemma GreedyStarts(ds: seq<Party>, cs: seq<Party>)
    requires AllNegative(ds) && AllPositive(cs)
    ensures Greedy(ds, cs) == [] <==> ds == [] || cs == []
    ensures ds != [] && cs != [] ==>
      Greedy(ds, cs)[0] == Settlement(ds[0].name, cs[0].name, Min(-ds[0].balance, cs[0].balance))
  {
    if ds != [] && cs != [] {
      assert ds[0] in ds && cs[0] in cs;
    }
  }

  /** The settlement plan the page shows for `balances`. */
  function Plan(balances: seq<Slot>): seq<Settlement> {
    Greedy(Sort(Debtors(balances), false), Sort(Creditors(balances), true))
  }

  /** `optimizeSettlements(balances)`: the debtors sorted most negative first, the creditors
      most positive first, then the two-cursor loop. */
  method OptimizeSettlements(balances: seq<Slot>) returns (settlements: seq<Settlement>)
    ensures settlements == Plan(balances)
  {
    var debtors := Sort(Debtors(balances), false);
    var creditors := Sort(Creditors(balances), true);
    ghost var left;
    settlements, left := Settle(debtors, creditors);
  }

  /** The `while` loop of `optimizeSettlements` over the sorted debtors and creditors, which
      it overwrites entry by entry as it goes. */
  method Settle(debtors0: seq<Party>, creditors0: seq<Party>)
    returns (settlements: seq<Settlement>, ghost left: (seq<Party>, seq<Party>))
    ensures settlements == Greedy(debtors0, creditors0)
    ensures left == GreedyLeft(debtors0, creditors0)
  {
    settlements := [];
    var debtors, creditors := debtors0, creditors0;
    ghost var plan := Greedy(debtors, creditors);
    var i, j := 0, 0;
    while i < |debtors| && j < |creditors|
      invariant i <= |debtors| && j <= |creditors|
      invariant settlements + Greedy(debtors[i..], creditors[j..]) == plan
      invariant GreedyLeft(debtors[i..], creditors[j..]) == GreedyLeft(debtors0, creditors0)
      decreases |debtors| - i + |creditors| - j
    {
      var d, c := debtors[i], creditors[j];
      var amount := Min(-d.balance, c.balance);
      ghost var ds, cs := debtors[i..], creditors[j..];
      ghost var before := settlements;
      if amount > 0.0 {
        settlements := settlements + [Settlement(d.name, c.name, amount)];
      }
      assert settlements == before + Paid(d, c);
      if -d.balance < c.balance {
        creditors := creditors[j := Party(c.name, c.balance + d.balance)];
        i := i + 1;
        assert [creditors[j]] + cs[1..] == creditors[j..];
        GreedyKeepsCreditor(ds, cs, debtors[i..], creditors[j..]);
      } else if -d.balance > c.balance {
        debtors := debtors[i := Party(d.name, d.balance + c.balance)];
        j := j + 1;
        assert [debtors[i]] + ds[1..] == debtors[i..];
        GreedyKeepsDebtor(ds, cs, debtors[i..], creditors[j..]);
      } else {
        i, j := i + 1, j + 1;
        GreedyDropsBoth(ds, cs, debtors[i..], creditors[j..]);
      }
      ghost var rest := Greedy(debtors[i..], creditors[j..]);
      assert before + Paid(d, c) + rest == before + (Paid(d, c) + rest) by {
        assert forall x: seq<Settlement>, y: seq<Settlement>, z: seq<Settlement> :: x + y + z == x + (y + z);
      }
    }
    assert Greedy(debtors[i..], creditors[j..]) == [];
    left := (debtors[i..], creditors[j..]);
  }

  lemma {:induction false} NameWitness(ps: seq<Party>, x: string) returns (p: Party)
    requires x in NameSet(ps)
    ensures p in ps && p.name == x
  {
    if ps[0].name == x {
      p := ps[0];
    } else {
      p := NameWitness(ps[1..], x);
    }
  }

  /** In an object with distinct keys, a debtor's or creditor's balance is its stored value. */
  lemma PartyValue(obj: seq<Slot>, p: Party)
    requires DistinctKeys(obj) && (p in Debtors(obj) || p in Creditors(obj))
    ensures ValueOf(obj, p.name) == p.balance
  {
    LookupSlot(obj, Slot(p.name, Num(p.balance)));
  }

  /** A key the object does not hold is no debtor and no creditor. */
  lemma {:induction false} AbsentParty(obj: seq<Slot>, x: string)
    requires x !in Keys(obj)
    ensures BalanceOf(Debtors(obj), x) == 0.0 && BalanceOf(Creditors(obj), x) == 0.0
  {
    if obj != [] {
      AbsentParty(obj[1..], x);
      var s := obj[0];
      if s.value.Num? {
        Cons(Party(s.key, s.value.v), Debtors(obj[1..]));
        Cons(Party(s.key, s.value.v), Creditors(obj[1..]));
      }
    }
  }

  /** Splitting the entries into debtors and creditors keeps every numeric balance, and drops
      the zeros and the NaNs. */
  lemma {:induction false} PartiesSplit(obj: seq<Slot>, x: string)
    requires DistinctKeys(obj)
    ensures BalanceOf(Debtors(obj), x) + BalanceOf(Creditors(obj), x) == ValueOf(obj, x)
  {
    if obj != [] {
      var s := obj[0];
      if s.value.Num? {
        Cons(Party(s.key, s.value.v), Debtors(obj[1..]));
        Cons(Party(s.key, s.value.v), Creditors(obj[1..]));
      }
      if s.key == x {
        AbsentParty(obj[1..], x);
      } else {
        PartiesSplit(obj[1..], x);
      }
    }
  }

  /** The debtors and creditors together add up to the numeric sum of the object. */
  lemma {:induction false} PartiesSum(obj: seq<Slot>)
    ensures Sum(Debtors(obj)) + Sum(Creditors(obj)) == NumericSum(obj)
  {
    if obj != [] {
      var s := obj[0];
      if s.value.Num? {
        Cons(Party(s.key, s.value.v), Debtors(obj[1..]));
        Cons(Party(s.key, s.value.v), Creditors(obj[1..]));
      }
      PartiesSum(obj[1..]);
    }
  }

  /** No entry is both a debtor and a creditor. */
  lemma {:induction false} PartiesCount(obj: seq<Slot>)
    ensures |Debtors(obj)| + |Creditors(obj)| <= |obj|
  {
    if obj != [] {
      PartiesCount(obj[1..]);
    }
  }

  /** The plan settles the group: when the balances sum to zero, every name's balance plus
      what it pays minus what it receives is zero. */
  lemma PlanSettles(balances: seq<Slot>)
    requires DistinctKeys(balances) && NumericSum(balances) == 0.0
    ensures forall x :: ValueOf(balances, x) + Outflow(Plan(balances), x) - Inflow(Plan(balances), x) == 0.0
  {
    var ds, cs := Sort(Debtors(balances), false), Sort(Creditors(balances), true);
    SortSortsPermutation(Debtors(balances), false);
    SortSortsPermutation(Creditors(balances), true);
    SortTotals(Debtors(balances), false);
    SortTotals(Creditors(balances), true);
    PartiesSum(balances);
    assert AllNegative(ds) by {
      forall p | p in ds ensures p.balance < 0.0 {
        assert p in multiset(ds);
      }
    }
    assert AllPositive(cs) by {
      forall p | p in cs ensures p.balance > 0.0 {
        assert p in multiset(cs);
      }
    }
    forall x ensures ValueOf(balances, x) + Outflow(Plan(balances), x) - Inflow(Plan(balances), x) == 0.0 {
      GreedySettles(ds, cs, x);
      PartiesSplit(balances, x);
    }
  }

  /** Every transfer is positive and goes from a name that owes to a different name that is
      owed. */
  lemma PlanShape(balances: seq<Slot>)
    requires DistinctKeys(balances)
    ensures forall s :: s in Plan(balances) ==>
      s.amount > 0.0 && Owes(balances, s.from) && IsOwed(balances, s.to) && s.from != s.to
  {
    var ds, cs := Sort(Debtors(balances), false), Sort(Creditors(balances), true);
    GreedyShape(ds, cs);
    SortSortsPermutation(Debtors(balances), false);
    SortSortsPermutation(Creditors(balances), true);
    forall s | s in Plan(balances) ensures Owes(balances, s.from) && IsOwed(balances, s.to) {
      var d := NameWitness(ds, s.from);
      var c := NameWitness(cs, s.to);
      assert d in multiset(ds) && c in multiset(cs);
      PartyValue(balances, d);
      PartyValue(balances, c);
    }
  }

  /** With `n` entries the plan has at most `n - 1` transfers. */
  lemma PlanLength(balances: seq<Slot>)
    ensures Plan(balances) == [] || |Plan(balances)| < |balances|
  {
    var ds, cs := Debtors(balances), Creditors(balances);
    GreedyLength(Sort(ds, false), Sort(cs, true));
    SortSortsPermutation(ds, false);
    SortSortsPermutation(cs, true);
    assert |Sort(ds, false)| == |ds| by {
      assert |multiset(Sort(ds, false))| == |multiset(ds)|;
    }
    assert |Sort(cs, true)| == |cs| by {
      assert |multiset(Sort(cs, true))| == |multiset(cs)|;
    }
    PartiesCount(balances);
  }

  /** No entry holds a negative number. */
  predicate NoDebtor(obj: seq<Slot>) {
    forall s :: s in obj && s.value.Num? ==> s.value.v >= 0.0
  }

  /** No entry holds a positive number. */
  predicate NoCreditor(obj: seq<Slot>) {
    forall s :: s in obj && s.value.Num? ==> s.value.v <= 0.0
  }

  lemma DebtorsEmpty(obj: seq<Slot>)
    ensures Debtors(obj) == [] <==> NoDebtor(obj)
  {
    if !NoDebtor(obj) {
      var s :| s in obj && s.value.Num? && s.value.v < 0.0;
      assert Slot(s.key, Num(s.value.v)) == s;
      assert Party(s.key, s.value.v) in Debtors(obj);
    }
    if Debtors(obj) != [] {
      assert Debtors(obj)[0] in Debtors(obj);
    }
  }

  lemma CreditorsEmpty(obj: seq<Slot>)
    ensures Creditors(obj) == [] <==> NoCreditor(obj)
  {
    if !NoCreditor(obj) {
      var s :| s in obj && s.value.Num? && s.value.v > 0.0;
      assert Slot(s.key, Num(s.value.v)) == s;
      assert Party(s.key, s.value.v) in Creditors(obj);
    }
    if Creditors(obj) != [] {
      assert Creditors(obj)[0] in Creditors(obj);
    }
  }

  /** The sorted debtors are negative and the sorted creditors positive. */
  lemma SortedSides(balances: seq<Slot>)
    ensures AllNegative(Sort(Debtors(balances), false))
    ensures AllPositive(Sort(Creditors(balances), true))
    ensures Sort(Debtors(balances), false) == [] <==> Debtors(balances) == []
    ensures Sort(Creditors(balances), true) == [] <==> Creditors(balances) == []
  {
    var ds, cs := Sort(Debtors(balances), false), Sort(Creditors(balances), true);
    SortSortsPermutation(Debtors(balances), false);
    SortSortsPermutation(Creditors(balances), true);
    forall p | p in ds ensures p.balance < 0.0 {
      assert p in multiset(ds);
    }
    forall p | p in cs ensures p.balance > 0.0 {
      assert p in multiset(cs);
    }
  }

  /** The plan is empty exactly when nobody owes or nobody is owed. */
  lemma PlanEmpty(balances: seq<Slot>)
    ensures Plan(balances) == [] <==> NoDebtor(balances) || NoCreditor(balances)
  {
    SortedSides(balances);
    GreedyStarts(Sort(Debtors(balances), false), Sort(Creditors(balances), true));
    DebtorsEmpty(balances);
    CreditorsEmpty(balances);
  }

  lemma HeadFirst(ps: seq<Party>, descending: bool, p: Party)
    requires Sorted(ps, descending) && p in ps
    ensures Before(ps[0], p, descending)
  {
    var k :| 0 <= k < |ps| && ps[k] == p;
    assert k == 0 || Before(ps[0], ps[k], descending);
  }

  /** The first transfer goes from the most negative balance to the most positive one, for the
      smaller of the two amounts. */
  lemma PlanFirst(balances: seq<Slot>)
    requires DistinctKeys(balances) && Plan(balances) != []
    ensures var f := Plan(balances)[0];
      f.amount == Min(-ValueOf(balances, f.from), ValueOf(balances, f.to))
    ensures var f := Plan(balances)[0];
      forall s :: s in balances && s.value.Num? ==>
        ValueOf(balances, f.from) <= s.value.v <= ValueOf(balances, f.to)
  {
    var ds, cs := Sort(Debtors(balances), false), Sort(Creditors(balances), true);
    SortedSides(balances);
    SortSortsPermutation(Debtors(balances), false);
    SortSortsPermutation(Creditors(balances), true);
    GreedyStarts(ds, cs);
    assert ds[0] in multiset(ds) && cs[0] in multiset(cs);
    PartyValue(balances, ds[0]);
    PartyValue(balances, cs[0]);
    forall s | s in balances && s.value.Num?
      ensures ds[0].balance <= s.value.v <= cs[0].balance
    {
      var p := Party(s.key, s.value.v);
      assert Slot(s.key, Num(s.value.v)) == s;
      if s.value.v < 0.0 {
        assert p in multiset(ds);
        HeadFirst(ds, false, p);
      } else if s.value.v > 0.0 {
        assert p in multiset(cs);
        HeadFirst(cs, true, p);
      }
    }
  }
}
