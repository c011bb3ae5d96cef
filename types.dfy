/** The records the expense-sharing page keeps in its state and hands between its steps. */
module Types {

  /** A member of the group. `id` is the opaque string the page mints when the friend is added. */
  datatype Friend = Friend(id: string, name: string)

  /** A recorded expense; `paidBy` is a friend's name and `amount` the already-parsed number. */
  datatype Expense = Expense(id: nat, paidBy: string, amount: real, description: string)

  /** One transfer of the settlement plan: `from` pays `amount` to `to`. */
  datatype Settlement = Settlement(from: string, to: string, amount: real)

  datatype Option<T> = None | Some(value: T)
}
