/** The page's list handlers: each builds a new friend or expense list from the old one. */
module Handlers {
  import opened Types

  /** The three text inputs of the "new expense" form. */
  datatype ExpenseDraft = ExpenseDraft(paidBy: string, amount: string, description: string)

  const BlankDraft := ExpenseDraft("", "", "")

  /** `addFriend`: a non-empty name is appended as a new friend under the fresh id the
      caller supplies (the page takes it from the clock), and the name input is cleared.
      Returns the new friend list and the new contents of the name input. */
  function AddFriend(friends: seq<Friend>, newFriend: string, freshId: string): (r: (seq<Friend>, string))
    ensures newFriend == "" ==> r.0 == friends
    ensures newFriend != "" ==>
      |r.0| == |friends| + 1 && r.0[..|friends|] == friends && r.0[|friends|] == Friend(freshId, newFriend)
    ensures r.1 == ""
  {
    if newFriend != "" then (friends + [Friend(freshId, newFriend)], "") else (friends, newFriend)
  }

  /** `removeFriend`: keeps, in order, the friends whose id differs from `id`. */
  function RemoveFriend(friends: seq<Friend>, id: string): (r: seq<Friend>)
    ensures |r| <= |friends|
    ensures forall f :: f in r <==> f in friends && f.id != id
  {
    if friends == [] then []
    else (if friends[0].id != id then [friends[0]] else []) + RemoveFriend(friends[1..], id)
  }

  predicate HasId(friends: seq<Friend>, id: string) {
    exists f :: f in friends && f.id == id
  }

  /** RemoveFriend keeps the relative order: filtering a concatenation filters each part. */
  lemma {:induction false} RemoveFriendDistributes(a: seq<Friend>, b: seq<Friend>, id: string)
    ensures RemoveFriend(a + b, id) == RemoveFriend(a, id) + RemoveFriend(b, id)
  {
    if a == [] {
      assert a + b == b;
    } else {
      assert (a + b)[0] == a[0];
      assert (a + b)[1..] == a[1..] + b;
      RemoveFriendDistributes(a[1..], b, id);
    }
  }

  /** Removing an id that no friend carries changes nothing. */
  lemma {:induction false} RemoveAbsentId(friends: seq<Friend>, id: string)
    requires !HasId(friends, id)
    ensures RemoveFriend(friends, id) == friends
  {
    if friends != [] {
      assert friends[0] in friends;
      assert !HasId(friends[1..], id) by {
        forall f | f in friends[1..] ensures f.id != id {
          assert f in friends;
        }
      }
      RemoveAbsentId(friends[1..], id);
      assert [friends[0]] + friends[1..] == friends;
    }
  }

  /** Removing the friend just added under a fresh id gives back the old list. */
  lemma RemoveAddedFriend(friends: seq<Friend>, newFriend: string, freshId: string)
    requires newFriend != "" && !HasId(friends, freshId)
    ensures RemoveFriend(AddFriend(friends, newFriend, freshId).0, freshId) == friends
  {
    var added := Friend(freshId, newFriend);
    RemoveFriendDistributes(friends, [added], freshId);
    RemoveAbsentId(friends, freshId);
    assert RemoveFriend([added], freshId) == [] by {
      assert [added][1..] == [];
    }
  }

  /** Removing the same id twice is the same as removing it once. */
  lemma {:induction false} RemoveFriendIdempotent(friends: seq<Friend>, id: string)
    ensures RemoveFriend(RemoveFriend(friends, id), id) == RemoveFriend(friends, id)
  {
    RemoveAbsentId(RemoveFriend(friends, id), id);
  }

  /** The guard of `addExpense`: all three inputs are non-empty strings. */
  predicate DraftComplete(draft: ExpenseDraft) {
    draft.paidBy != "" && draft.amount != "" && draft.description != ""
  }

  /** `addExpense`: a complete draft is appended with id `|expenses| + 1` and the form is
      cleared; an incomplete one changes nothing. `parsedAmount` is the number the page
      parses from `draft.amount`. Returns the new expense list and the new form contents. */
  function AddExpense(expenses: seq<Expense>, draft: ExpenseDraft, parsedAmount: real): (r: (seq<Expense>, ExpenseDraft))
    ensures !DraftComplete(draft) ==> r == (expenses, draft)
    ensures DraftComplete(draft) ==>
      |r.0| == |expenses| + 1 && r.0[..|expenses|] == expenses && r.1 == BlankDraft &&
      r.0[|expenses|] == Expense(|expenses| + 1, draft.paidBy, parsedAmount, draft.description)
  {
    if DraftComplete(draft) then
      (expenses + [Expense(|expenses| + 1, draft.paidBy, parsedAmount, draft.description)], BlankDraft)
    else
      (expenses, draft)
  }

  /** Expense ids count up from 1 in list order, which is what `addExpense` builds from []. */
  predicate SequentialIds(expenses: seq<Expense>) {
    forall k :: 0 <= k < |expenses| ==> expenses[k].id == k + 1
  }

  /** Adding an expense keeps the ids sequential, so ids never collide. */
  lemma AddExpenseKeepsIds(expenses: seq<Expense>, draft: ExpenseDraft, parsedAmount: real)
    requires SequentialIds(expenses)
    ensures SequentialIds(AddExpense(expenses, draft, parsedAmount).0)
    ensures var es := AddExpense(expenses, draft, parsedAmount).0;
      forall k, m :: 0 <= k < m < |es| ==> es[k].id != es[m].id
  {
  }
}
