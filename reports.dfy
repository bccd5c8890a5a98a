/**
 * The reports page's figures: meal units and contributions grouped into
 * dictionaries keyed by user name (users who share a name are merged), the
 * list of all names, one chart series per dictionary, and the summary totals.
 */
module Reports {
  import opened Views
  import opened Money

  /** One (user name, amount) pair fed to a `reduce`. */
  datatype Entry = Entry(name: string, value: real)

  /** A JavaScript object used as a dictionary: its own keys in insertion order, and its values. */
  datatype Dict = Dict(keys: seq<string>, values: map<string, real>)

  ghost predicate Distinct(s: seq<string>)
  {
    forall i, j :: 0 <= i < j < |s| ==> s[i] != s[j]
  }

  ghost predicate WellFormed(d: Dict)
  {
    Distinct(d.keys) && forall k :: k in d.values <==> k in d.keys
  }

  /** `d[k] = v`: a new key is appended to the key order, an existing one keeps its place. */
  function SetKey(d: Dict, k: string, v: real): (r: Dict)
    requires WellFormed(d)
    ensures WellFormed(r)
    ensures r.values == d.values[k := v]
    ensures r.keys == if k in d.values then d.keys else d.keys + [k]
  {
    if k in d.values then Dict(d.keys, d.values[k := v]) else Dict(d.keys + [k], d.values[k := v])
  }

  function Names(entries: seq<Entry>): seq<string>
  {
    seq(|entries|, i requires 0 <= i < |entries| => entries[i].name)
  }

  /** `Array.from(new Set(s))`: each element once, at its first occurrence. */
  function Dedup(s: seq<string>): (r: seq<string>)
    ensures Distinct(r)
    ensures forall x :: x in r <==> x in s
  {
    if |s| == 0 then []
    else
      var p := Dedup(s[..|s| - 1]);
      if s[|s| - 1] in s[..|s| - 1] then p else p + [s[|s| - 1]]
  }

  /** The sum of the values of the entries named n. */
  function SumFor(entries: seq<Entry>, n: string): real
  {
    if |entries| == 0 then 0.0
    else SumFor(entries[..|entries| - 1], n) + if entries[|entries| - 1].name == n then entries[|entries| - 1].value else 0.0
  }

  /** The sum of the values of all entries. */
  function SumAll(entries: seq<Entry>): real
  {
    if |entries| == 0 then 0.0 else SumAll(entries[..|entries| - 1]) + entries[|entries| - 1].value
  }

  /** The sum of the values at the given keys, in order. */
  function SumOver(keys: seq<string>, values: map<string, real>): real
    requires forall k :: k in keys ==> k in values
  {
    if |keys| == 0 then 0.0 else SumOver(keys[..|keys| - 1], values) + values[keys[|keys| - 1]]
  }

  /** `Object.values(d).reduce((sum, v) => sum + v, 0)`. */
  function ValuesSum(d: Dict): real
    requires WellFormed(d)
  {
    SumOver(d.keys, d.values)
  }

  lemma {:induction false} SumForAbsent(entries: seq<Entry>, n: string)
    requires n !in Names(entries)
    ensures SumFor(entries, n) == 0.0
  {
    if |entries| > 0 {
      var init := entries[..|entries| - 1];
      assert Names(entries) == Names(init) + [entries[|entries| - 1].name];
      SumForAbsent(init, n);
    }
  }

  lemma {:induction false} SumOverOtherKey(keys: seq<string>, values: map<string, real>, k: string, v: real)
    requires forall x :: x in keys ==> x in values
    requires k !in keys
    ensures SumOver(keys, values[k := v]) == SumOver(keys, values)
  {
    if |keys| > 0 {
      SumOverOtherKey(keys[..|keys| - 1], values, k, v);
    }
  }

  lemma {:induction false} SumOverUpdate(keys: seq<string>, values: map<string, real>, k: string, v: real)
    requires forall x :: x in keys ==> x in values
    requires Distinct(keys) && k in keys
    ensures SumOver(keys, values[k := v]) == SumOver(keys, values) - values[k] + v
  {
    var init, last := keys[..|keys| - 1], keys[|keys| - 1];
    assert keys == init + [last];
    if last == k {
      assert k !in init;
      SumOverOtherKey(init, values, k, v);
    } else {
      assert k in init;
      SumOverUpdate(init, values, k, v);
    }
  }

  /** What the grouping has built after the entries `seen`. */
  ghost predicate Grouped(acc: Dict, seen: seq<Entry>)
  {
    && WellFormed(acc)
    && acc.keys == Dedup(Names(seen))
    && (forall n :: n in acc.values ==> acc.values[n] == SumFor(seen, n))
    && SumOver(acc.keys, acc.values) == SumAll(seen)
  }

  /**
   * One step of the reduce: `if (!acc[name]) acc[name] = 0; acc[name] += value`.
   * Resetting a value that is already 0 changes nothing, so the step creates a
   * missing key with 0 and adds the value.
   */
  function AddEntry(acc: Dict, e: Entry): (r: Dict)
    requires WellFormed(acc)
    ensures WellFormed(r)
  {
    var current := if e.name in acc.values then acc.values[e.name] else 0.0;
    SetKey(acc, e.name, current + e.value)
  }

  lemma DedupStep(s: seq<string>, x: string)
    ensures Dedup(s + [x]) == if x in s then Dedup(s) else Dedup(s) + [x]
  {
    assert (s + [x])[..|s|] == s;
  }

  lemma {:induction false} SumForStep(seen: seq<Entry>, e: Entry, n: string)
    ensures SumFor(seen + [e], n) == SumFor(seen, n) + if e.name == n then e.value else 0.0
  {
    assert (seen + [e])[..|seen|] == seen;
  }

  lemma {:induction false} SumAllStep(seen: seq<Entry>, e: Entry)
    ensures SumAll(seen + [e]) == SumAll(seen) + e.value
  {
    assert (seen + [e])[..|seen|] == seen;
  }

  lemma AddEntryGroups(acc: Dict, seen: seq<Entry>, e: Entry)
    requires Grouped(acc, seen)
    ensures Grouped(AddEntry(acc, e), seen + [e])
  {
    AddEntryKeys(acc, seen, e);
    AddEntryValues(acc, seen, e);
    AddEntrySum(acc, seen, e);
  }

  lemma AddEntryKeys(acc: Dict, seen: seq<Entry>, e: Entry)
    requires WellFormed(acc) && acc.keys == Dedup(Names(seen))
    ensures AddEntry(acc, e).keys == Dedup(Names(seen + [e]))
  {
    assert Names(seen + [e]) == Names(seen) + [e.name] by {
      assert (seen + [e])[..|seen|] == seen;
    }
    DedupStep(Names(seen), e.name);
  }

  lemma AddEntryValues(acc: Dict, seen: seq<Entry>, e: Entry)
    requires WellFormed(acc) && acc.keys == Dedup(Names(seen))
    requires forall n :: n in acc.values ==> acc.values[n] == SumFor(seen, n)
    ensures forall n :: n in AddEntry(acc, e).values ==> AddEntry(acc, e).values[n] == SumFor(seen + [e], n)
  {
    var r := AddEntry(acc, e);
    forall n | n in r.values ensures r.values[n] == SumFor(seen + [e], n) {
      SumForStep(seen, e, n);
      if n == e.name && n !in acc.values {
        SumForAbsent(seen, n);
      }
    }
  }

  lemma AddEntrySum(acc: Dict, seen: seq<Entry>, e: Entry)
    requires WellFormed(acc)
    requires SumOver(acc.keys, acc.values) == SumAll(seen)
    ensures SumOver(AddEntry(acc, e).keys, AddEntry(acc, e).values) == SumAll(seen + [e])
  {
    SumAllStep(seen, e);
    if e.name !in acc.values {
      AddNewNameSum(acc, e);
    } else {
      AddKnownNameSum(acc, e);
    }
  }

  lemma AddNewNameSum(acc: Dict, e: Entry)
    requires WellFormed(acc) && e.name !in acc.values
    ensures SumOver(AddEntry(acc, e).keys, AddEntry(acc, e).values) == SumOver(acc.keys, acc.values) + e.value
  {
    var n := e.name;
    var keys, values := acc.keys + [n], acc.values[n := e.value];
    assert AddEntry(acc, e) == Dict(keys, values);
    SumOverOtherKey(acc.keys, acc.values, n, e.value);
    assert keys[..|acc.keys|] == acc.keys;
  }

  lemma AddKnownNameSum(acc: Dict, e: Entry)
    requires WellFormed(acc) && e.name in acc.values
    ensures SumOver(AddEntry(acc, e).keys, AddEntry(acc, e).values) == SumOver(acc.keys, acc.values) + e.value
  {
    var n := e.name;
    assert AddEntry(acc, e) == Dict(acc.keys, acc.values[n := acc.values[n] + e.value]);
    SumOverUpdate(acc.keys, acc.values, n, acc.values[n] + e.value);
  }

  /**
   * The `reduce` that groups entries by name. Each name is a key once, in
   * first-occurrence order, holding the sum of its entries; the values add up
   * to the sum of all entries.
   */
  method GroupByName(entries: seq<Entry>) returns (acc: Dict)
    ensures WellFormed(acc)
    ensures acc.keys == Dedup(Names(entries))
    ensures forall n :: n in acc.values ==> acc.values[n] == SumFor(entries, n)
    ensures ValuesSum(acc) == SumAll(entries)
  {
    acc := Dict([], map[]);
    for i := 0 to |entries|
      invariant Grouped(acc, entries[..i])
    {
      assert entries[..i + 1] == entries[..i] + [entries[i]];
      AddEntryGroups(acc, entries[..i], entries[i]);
      acc := AddEntry(acc, entries[i]);
    }
    assert entries[..|entries|] == entries;
  }

  /** The entries of `mealsByUser`: each meal's user name and its lunch + dinner. */
  function MealEntries(meals: seq<MealView>): seq<Entry>
  {
    seq(|meals|, i requires 0 <= i < |meals| => Entry(meals[i].user.name, (meals[i].lunch + meals[i].dinner) as real))
  }

  /** The entries of `contributionsByUser`: each contribution's user name and amount. */
  function ContributionEntries(cs: seq<ContributionView>): seq<Entry>
  {
    seq(|cs|, i requires 0 <= i < |cs| => Entry(cs[i].user.name, cs[i].amount))
  }

  /** `d[name] || 0`: the dictionary's value, 0 for a name it lacks. */
  function ValueOr0(d: Dict, name: string): (v: real)
    ensures name !in d.values ==> v == 0.0
    ensures name in d.values ==> v == d.values[name]
  {
    if name in d.values && d.values[name] != 0.0 then d.values[name] else 0.0
  }

  /** `names.map(name => d[name] || 0)`: one chart bar per name. */
  function Series(names: seq<string>, d: Dict): (r: seq<real>)
    ensures |r| == |names|
    ensures forall i :: 0 <= i < |names| ==> r[i] == ValueOr0(d, names[i])
  {
    seq(|names|, i requires 0 <= i < |names| => ValueOr0(d, names[i]))
  }

  /** The "Summary Statistics" box; money is shown through toFixed(2). */
  datatype Summary = Summary(totalMeals: real, totalContributions: string, activeUsers: nat, avgContribution: string)

  datatype Report = Report(
    mealsByUser: Dict,
    contributionsByUser: Dict,
    userNames: seq<string>,
    mealSeries: seq<real>,
    contributionSeries: seq<real>,
    summary: Summary)

  /** A chart series over a grouped dictionary gives each name the sum of its entries, 0 for a name without any. */
  lemma SeriesOfGroup(entries: seq<Entry>, d: Dict, names: seq<string>)
    requires WellFormed(d) && d.keys == Dedup(Names(entries))
    requires forall n :: n in d.values ==> d.values[n] == SumFor(entries, n)
    ensures forall i :: 0 <= i < |names| ==> Series(names, d)[i] == SumFor(entries, names[i])
  {
    forall i | 0 <= i < |names| ensures Series(names, d)[i] == SumFor(entries, names[i]) {
      if names[i] !in d.values {
        SumForAbsent(entries, names[i]);
      }
    }
  }

  lemma MealNames(meals: seq<MealView>, n: string)
    ensures n in Names(MealEntries(meals)) <==> exists i :: 0 <= i < |meals| && meals[i].user.name == n
  {
    var names := Names(MealEntries(meals));
    if exists i :: 0 <= i < |meals| && meals[i].user.name == n {
      var i :| 0 <= i < |meals| && meals[i].user.name == n;
      assert names[i] == n;
    }
  }

  lemma ContributionNames(cs: seq<ContributionView>, n: string)
    ensures n in Names(ContributionEntries(cs)) <==> exists i :: 0 <= i < |cs| && cs[i].user.name == n
  {
    var names := Names(ContributionEntries(cs));
    if exists i :: 0 <= i < |cs| && cs[i].user.name == n {
      var i :| 0 <= i < |cs| && cs[i].user.name == n;
      assert names[i] == n;
    }
  }

  /** Everything the page derives from the fetched meals and contributions. */
  method BuildReport(meals: seq<MealView>, contributions: seq<ContributionView>) returns (report: Report)
    ensures Distinct(report.userNames)
    ensures forall n :: n in report.userNames <==>
      (exists i :: 0 <= i < |meals| && meals[i].user.name == n) ||
      (exists i :: 0 <= i < |contributions| && contributions[i].user.name == n)
    ensures |report.mealSeries| == |report.userNames| == |report.contributionSeries|
    ensures forall i :: 0 <= i < |report.userNames| ==>
      && report.mealSeries[i] == SumFor(MealEntries(meals), report.userNames[i])
      && report.contributionSeries[i] == SumFor(ContributionEntries(contributions), report.userNames[i])
    ensures report.summary.totalMeals == SumAll(MealEntries(meals))
    ensures report.summary.totalContributions == ToFixed2(SumAll(ContributionEntries(contributions)))
    ensures report.summary.activeUsers == |report.userNames|
    ensures report.summary.avgContribution ==
      if |report.userNames| > 0
      then ToFixed2(SumAll(ContributionEntries(contributions)) / |report.userNames| as real)
      else "0.00"
  {
    var mealEntries, contributionEntries := MealEntries(meals), ContributionEntries(contributions);
    var mealsByUser := GroupByName(mealEntries);
    var contributionsByUser := GroupByName(contributionEntries);
    var userNames := Dedup(mealsByUser.keys + contributionsByUser.keys);
    var mealSeries := Series(userNames, mealsByUser);
    var contributionSeries := Series(userNames, contributionsByUser);
    SeriesOfGroup(mealEntries, mealsByUser, userNames);
    SeriesOfGroup(contributionEntries, contributionsByUser, userNames);
    forall n ensures n in userNames <==>
      (exists i :: 0 <= i < |meals| && meals[i].user.name == n) ||
      (exists i :: 0 <= i < |contributions| && contributions[i].user.name == n)
    {
      MealNames(meals, n);
      ContributionNames(contributions, n);
    }
    var total := ValuesSum(contributionsByUser);
    // the average contribution per listed name, "0.00" when there is no name
    var average := if |userNames| > 0 then ToFixed2(total / |userNames| as real) else "0.00";
    var summary := Summary(ValuesSum(mealsByUser), ToFixed2(total), |userNames|, average);
    report := Report(mealsByUser, contributionsByUser, userNames, mealSeries, contributionSeries, summary);
  }
}
