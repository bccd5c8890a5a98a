/** The records the pages receive as JSON from the API, with the owning user's public fields. */
module Views {

  datatype UserSummary = UserSummary(id: string, name: string, email: string)

  datatype MealView = MealView(id: nat, userId: string, date: int, lunch: int, dinner: int, user: UserSummary)

  datatype ContributionView = ContributionView(id: nat, userId: string, amount: real, date: int, user: UserSummary)
}
