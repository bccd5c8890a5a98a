/**
 * The stored records of the household: users, their daily meal entries and
 * their cash contributions. Dates are day numbers; a meal id is the number
 * the store assigned when it created the row.
 */
module Entities {
  import opened Wrappers

  datatype Role = Admin | Member

  /** An authenticated session; only its role matters to the core. */
  datatype Session = Session(role: Role)

  datatype User = User(id: string, name: string, email: string, phone: Option<string>, role: Role)

  /** One meal entry: lunch and dinner are the meal units eaten that day. */
  datatype Meal = Meal(id: nat, userId: string, date: int, lunch: int, dinner: int)

  datatype Contribution = Contribution(id: nat, userId: string, amount: real, description: Option<string>, date: int)

  /** The number of meal units a meal entry counts for. */
  function Units(m: Meal): int
  {
    m.lunch + m.dinner
  }
}
