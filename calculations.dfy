/**
 * The balance calculator: a household-wide cost per meal unit (all
 * contributions over all meal units) and, per user, what they paid minus
 * what their meal units cost at that rate, rounded to cents.
 */
module Calculations {
  import opened Wrappers
  import opened Entities
  import opened Money

  /** A user as fetched together with all their meals and contributions. */
  datatype UserRecords = UserRecords(user: User, meals: seq<Meal>, contributions: seq<Contribution>)

  datatype UserBalance = UserBalance(
    userId: string,
    userName: string,
    userEmail: string,
    userPhone: Option<string>,
    totalMeals: int,
    totalContribution: real,
    balance: real)

  datatype SystemStats = SystemStats(totalUsers: nat, totalMeals: int, totalContributions: real, perMealCost: real)

  // ---- sums, folded from the left as `reduce` and `forEach` do ----

  /** The meal units of a list of meals: the sum of lunch + dinner. */
  function MealUnits(meals: seq<Meal>): int
  {
    if |meals| == 0 then 0 else MealUnits(meals[..|meals| - 1]) + Units(meals[|meals| - 1])
  }

  /** The sum of the amounts of a list of contributions. */
  function ContributionTotal(cs: seq<Contribution>): real
  {
    if |cs| == 0 then 0.0 else ContributionTotal(cs[..|cs| - 1]) + cs[|cs| - 1].amount
  }

  /** Meal units over every meal of every user. */
  function AllMealUnits(users: seq<UserRecords>): int
  {
    if |users| == 0 then 0 else AllMealUnits(users[..|users| - 1]) + MealUnits(users[|users| - 1].meals)
  }

  /** Contributions over every contribution of every user. */
  function AllContributions(users: seq<UserRecords>): real
  {
    if |users| == 0 then 0.0
    else AllContributions(users[..|users| - 1]) + ContributionTotal(users[|users| - 1].contributions)
  }

  /** The shared cost of one meal unit; 0 when no meal unit was recorded. */
  function PerMealCost(totalMeals: int, totalContribution: real): (cost: real)
    ensures totalMeals > 0 ==> cost * totalMeals as real == totalContribution
    ensures totalMeals <= 0 ==> cost == 0.0
  {
    if totalMeals > 0 then totalContribution / totalMeals as real else 0.0
  }

  /** The cost per meal unit the household's records give. */
  function SharedCost(users: seq<UserRecords>): real
  {
    PerMealCost(AllMealUnits(users), AllContributions(users))
  }

  /** What a user paid minus what their meal units cost, before rounding. */
  function RawBalance(u: UserRecords, cost: real): real
  {
    ContributionTotal(u.contributions) - MealUnits(u.meals) as real * cost
  }

  /** The balance record of one user at a given cost per meal unit. */
  function BalanceOf(u: UserRecords, cost: real): UserBalance
  {
    UserBalance(u.user.id, u.user.name, u.user.email, u.user.phone,
                MealUnits(u.meals), ContributionTotal(u.contributions), Round2(RawBalance(u, cost)))
  }

  /**
   * The balances of all users: one per user, in the order the users were
   * fetched, the user's fields copied, the meal and contribution totals
   * summed, and the balance rounded to cents.
   */
  function Balances(users: seq<UserRecords>): (bs: seq<UserBalance>)
    ensures |bs| == |users|
    ensures forall i :: 0 <= i < |users| ==>
      && bs[i].userId == users[i].user.id && bs[i].userName == users[i].user.name
      && bs[i].userEmail == users[i].user.email && bs[i].userPhone == users[i].user.phone
      && bs[i].totalMeals == MealUnits(users[i].meals)
      && bs[i].totalContribution == ContributionTotal(users[i].contributions)
      && bs[i].balance == Round2(RawBalance(users[i], SharedCost(users)))
  {
    var cost := SharedCost(users);
    var bs := seq(|users|, i requires 0 <= i < |users| => BalanceOf(users[i], cost));
    assert forall i :: 0 <= i < |users| ==> bs[i] == BalanceOf(users[i], cost);
    bs
  }

  /** The two household-wide totals, accumulated meal by meal and contribution by contribution. */
  method Totals(users: seq<UserRecords>) returns (totalMeals: int, totalContribution: real)
    ensures totalMeals == AllMealUnits(users)
    ensures totalContribution == AllContributions(users)
  {
    totalMeals, totalContribution := 0, 0.0;
    for i := 0 to |users|
      invariant totalMeals == AllMealUnits(users[..i])
      invariant totalContribution == AllContributions(users[..i])
    {
      var u := users[i];
      assert users[..i + 1][..i] == users[..i];
      for j := 0 to |u.meals|
        invariant totalMeals == AllMealUnits(users[..i]) + MealUnits(u.meals[..j])
      {
        assert u.meals[..j + 1][..j] == u.meals[..j];
        totalMeals := totalMeals + u.meals[j].lunch + u.meals[j].dinner;
      }
      for j := 0 to |u.contributions|
        invariant totalContribution == AllContributions(users[..i]) + ContributionTotal(u.contributions[..j])
      {
        assert u.contributions[..j + 1][..j] == u.contributions[..j];
        totalContribution := totalContribution + u.contributions[j].amount;
      }
      assert u.meals[..|u.meals|] == u.meals;
      assert u.contributions[..|u.contributions|] == u.contributions;
    }
    assert users[..|users|] == users;
  }

  /** The balances, computed from the two totals the loops accumulate. */
  method CalculateUserBalances(users: seq<UserRecords>) returns (balances: seq<UserBalance>)
    ensures balances == Balances(users)
  {
    var totalMeals, totalContribution := Totals(users);
    var cost := PerMealCost(totalMeals, totalContribution);
    balances := seq(|users|, i requires 0 <= i < |users| => BalanceOf(users[i], cost));
  }

  /** The summary figures: user count, raw meal units, contributions and cost rounded to cents. */
  method GetSystemStats(users: seq<UserRecords>) returns (stats: SystemStats)
    ensures stats.totalUsers == |users|
    ensures stats.totalMeals == AllMealUnits(users)
    ensures stats.totalContributions == Round2(AllContributions(users))
    ensures stats.perMealCost == Round2(SharedCost(users))
  {
    var totalMeals, totalContributions := Totals(users);
    var perMealCost := PerMealCost(totalMeals, totalContributions);
    stats := SystemStats(|users|, totalMeals, Round2(totalContributions), Round2(perMealCost));
  }

  // ---- laws of the split ----

  /** The sum of the unrounded balances. */
  function SumRaw(users: seq<UserRecords>, cost: real): real
  {
    if |users| == 0 then 0.0 else SumRaw(users[..|users| - 1], cost) + RawBalance(users[|users| - 1], cost)
  }

  function SumBalances(bs: seq<UserBalance>): real
  {
    if |bs| == 0 then 0.0 else SumBalances(bs[..|bs| - 1]) + bs[|bs| - 1].balance
  }

  function SumTotalMeals(bs: seq<UserBalance>): int
  {
    if |bs| == 0 then 0 else SumTotalMeals(bs[..|bs| - 1]) + bs[|bs| - 1].totalMeals
  }

  /** Summed over users, the raw balances are all contributions minus all meal units at the cost. */
  lemma {:induction false} SumRawIsTotalsDifference(users: seq<UserRecords>, cost: real)
    ensures SumRaw(users, cost) == AllContributions(users) - AllMealUnits(users) as real * cost
  {
    if |users| > 0 {
      var init := users[..|users| - 1];
      SumRawIsTotalsDifference(init, cost);
      var a, b := AllMealUnits(init) as real, MealUnits(users[|users| - 1].meals) as real;
      assert (a + b) * cost == a * cost + b * cost;
    }
  }

  /** With at least one meal unit the split is exactly conservative: raw balances sum to zero. */
  lemma BalancesConserved(users: seq<UserRecords>)
    requires AllMealUnits(users) > 0
    ensures SumRaw(users, SharedCost(users)) == 0.0
  {
    SumRawIsTotalsDifference(users, SharedCost(users));
  }

  /** With no meal units, each balance is the user's own contribution total, rounded to cents. */
  lemma ZeroMealsBalances(users: seq<UserRecords>)
    requires AllMealUnits(users) <= 0
    ensures forall i :: 0 <= i < |users| ==>
      Balances(users)[i].balance == Round2(ContributionTotal(users[i].contributions))
  {
    assert SharedCost(users) == 0.0;
  }

  lemma {:induction false} SumBalancesNearRaw(users: seq<UserRecords>, cost: real)
    ensures var bs := seq(|users|, i requires 0 <= i < |users| => BalanceOf(users[i], cost));
      SumRaw(users, cost) - 0.005 * |users| as real <= SumBalances(bs) <= SumRaw(users, cost) + 0.005 * |users| as real
  {
    var bs := seq(|users|, i requires 0 <= i < |users| => BalanceOf(users[i], cost));
    if |users| > 0 {
      var init := users[..|users| - 1];
      SumBalancesNearRaw(init, cost);
      var bs' := seq(|init|, i requires 0 <= i < |init| => BalanceOf(init[i], cost));
      assert bs[..|bs| - 1] == bs';
    }
  }

  /** The rounded balances sum to within half a cent per user of zero when meals were recorded. */
  lemma RoundedBalancesNearZero(users: seq<UserRecords>)
    requires AllMealUnits(users) > 0
    ensures -0.005 * |users| as real <= SumBalances(Balances(users)) <= 0.005 * |users| as real
  {
    BalancesConserved(users);
    SumBalancesNearRaw(users, SharedCost(users));
  }

  /** The per-user meal totals add up to the household-wide total the stats report. */
  lemma {:induction false} PerUserMealsAddUp(users: seq<UserRecords>, cost: real)
    ensures var bs := seq(|users|, i requires 0 <= i < |users| => BalanceOf(users[i], cost));
      SumTotalMeals(bs) == AllMealUnits(users)
  {
    var bs := seq(|users|, i requires 0 <= i < |users| => BalanceOf(users[i], cost));
    if |users| > 0 {
      var init := users[..|users| - 1];
      PerUserMealsAddUp(init, cost);
      var bs' := seq(|init|, i requires 0 <= i < |init| => BalanceOf(init[i], cost));
      assert bs[..|bs| - 1] == bs';
    }
  }

  /** The balances' meal totals agree with the stats' total meal units. */
  lemma BalancesAgreeWithStats(users: seq<UserRecords>)
    ensures SumTotalMeals(Balances(users)) == AllMealUnits(users)
  {
    PerUserMealsAddUp(users, SharedCost(users));
  }

  /** Two flatmates: A ate 2 units and paid nothing, B ate nothing and paid 100. */
  lemma TwoFlatmates(a: User, b: User, m1: Meal, c1: Contribution)
    requires m1.lunch == 1 && m1.dinner == 1 && c1.amount == 100.0
    ensures var users := [UserRecords(a, [m1], []), UserRecords(b, [], [c1])];
      && AllMealUnits(users) == 2 && AllContributions(users) == 100.0 && SharedCost(users) == 50.0
      && Balances(users)[0].balance == -100.0 && Balances(users)[1].balance == 100.0
  {
    var users := [UserRecords(a, [m1], []), UserRecords(b, [], [c1])];
    assert [m1][..0] == [];
    assert [c1][..0] == [];
    assert MealUnits([m1]) == 2;
    assert ContributionTotal([c1]) == 100.0;
    assert users[..1][..0] == [];
    assert users[..1] == [users[0]];
    assert AllMealUnits(users[..1]) == 2;
    assert AllContributions(users[..1]) == 0.0;
    Round2Unique(-100.0, -100.0);
    Round2Unique(100.0, 100.0);
  }

  /** No users: no balances and all-zero stats. */
  lemma NoUsers()
    ensures Balances([]) == []
    ensures AllMealUnits([]) == 0 && AllContributions([]) == 0.0 && SharedCost([]) == 0.0
  {
  }
}
