/**
 * The meals HTTP handlers over the meal table. POST upserts the entry of a
 * (userId, date) pair: it looks the pair up and either overwrites lunch and
 * dinner of the row it finds or creates a row. GET lists the rows that match
 * an optional user and an inclusive date range, latest date first.
 */
module MealsApi {
  import opened Wrappers
  import opened Entities

  /** The JSON body of a POST; `None` stands for a missing, null or empty field. */
  datatype MealBody = MealBody(userId: Option<string>, date: Option<int>, lunch: Option<int>, dinner: Option<int>)

  /** A POST's answer: 201 with the stored row, 401 for a non-admin session, 400 for a missing field. */
  datatype PostResponse = Created(meal: Meal) | Unauthorized | BadRequest

  /** The search parameters of a GET; a date parameter that is absent or empty is `None`. */
  datatype MealQuery = MealQuery(userId: Option<string>, startDate: Option<int>, endDate: Option<int>)

  datatype GetResponse = Listed(meals: seq<Meal>) | NotSignedIn

  predicate IsAdmin(session: Option<Session>)
  {
    session.Some? && session.value.role == Admin
  }

  /** JavaScript truthiness of an optional string: present and not empty. */
  predicate Truthy(s: Option<string>)
  {
    s.Some? && s.value != ""
  }

  /** `v || 0`: a missing or falsy meal count is stored as 0. */
  function OrZero(v: Option<int>): (n: int)
    ensures v.None? ==> n == 0
    ensures v.Some? ==> n == v.value
  {
    match v
    case Some(x) => x
    case None => 0
  }

  // ---- the table and its composite key ----

  predicate HasKey(m: Meal, userId: string, date: int)
  {
    m.userId == userId && m.date == date
  }

  /** At most one row per (userId, date): the `userId_date` unique constraint. */
  ghost predicate UniqueKeys(rows: seq<Meal>)
  {
    forall i, j :: 0 <= i < j < |rows| ==> !HasKey(rows[j], rows[i].userId, rows[i].date)
  }

  ghost predicate UniqueIds(rows: seq<Meal>)
  {
    forall i, j :: 0 <= i < j < |rows| ==> rows[i].id != rows[j].id
  }

  /** Every id in the table is below the next id the store hands out. */
  ghost predicate IdsBelow(rows: seq<Meal>, nextId: nat)
  {
    forall i :: 0 <= i < |rows| ==> rows[i].id < nextId
  }

  /** The number of rows with a given key. */
  function CountKey(rows: seq<Meal>, userId: string, date: int): nat
  {
    if |rows| == 0 then 0
    else CountKey(rows[..|rows| - 1], userId, date) + if HasKey(rows[|rows| - 1], userId, date) then 1 else 0
  }

  /** `findUnique` on the composite key: the position of the row with that key, if any. */
  function FindByKey(rows: seq<Meal>, userId: string, date: int): (r: Option<nat>)
    ensures r.Some? ==> r.value < |rows| && HasKey(rows[r.value], userId, date)
    ensures r.None? ==> forall i :: 0 <= i < |rows| ==> !HasKey(rows[i], userId, date)
  {
    if |rows| == 0 then None
    else if HasKey(rows[|rows| - 1], userId, date) then Some(|rows| - 1)
    else FindByKey(rows[..|rows| - 1], userId, date)
  }

  datatype Upserted = Upserted(rows: seq<Meal>, meal: Meal, nextId: nat)

  /** The update-or-create of a POST whose fields passed validation. */
  function Upsert(rows: seq<Meal>, nextId: nat, userId: string, date: int, lunch: int, dinner: int): Upserted
  {
    match FindByKey(rows, userId, date)
    case Some(i) =>
      var updated := rows[i].(lunch := lunch, dinner := dinner);
      Upserted(rows[i := updated], updated, nextId)
    case None =>
      var created := Meal(nextId, userId, date, lunch, dinner);
      Upserted(rows + [created], created, nextId + 1)
  }

  lemma {:induction false} CountKeyZero(rows: seq<Meal>, userId: string, date: int)
    requires forall i :: 0 <= i < |rows| ==> !HasKey(rows[i], userId, date)
    ensures CountKey(rows, userId, date) == 0
  {
    if |rows| > 0 {
      CountKeyZero(rows[..|rows| - 1], userId, date);
    }
  }

  lemma {:induction false} CountKeyOne(rows: seq<Meal>, k: nat, userId: string, date: int)
    requires k < |rows| && HasKey(rows[k], userId, date)
    requires forall i :: 0 <= i < |rows| && i != k ==> !HasKey(rows[i], userId, date)
    ensures CountKey(rows, userId, date) == 1
  {
    var init := rows[..|rows| - 1];
    if k == |rows| - 1 {
      CountKeyZero(init, userId, date);
    } else {
      CountKeyOne(init, k, userId, date);
    }
  }

  /** An upsert keeps the table free of duplicate keys and of duplicate ids. */
  lemma UpsertKeepsInvariant(rows: seq<Meal>, nextId: nat, userId: string, date: int, lunch: int, dinner: int)
    requires UniqueKeys(rows) && UniqueIds(rows) && IdsBelow(rows, nextId)
    ensures var u := Upsert(rows, nextId, userId, date, lunch, dinner);
      UniqueKeys(u.rows) && UniqueIds(u.rows) && IdsBelow(u.rows, u.nextId)
  {
  }

  /** After an upsert exactly one row carries the key, and it is the row returned. */
  lemma UpsertLeavesOneRow(rows: seq<Meal>, nextId: nat, userId: string, date: int, lunch: int, dinner: int)
    requires UniqueKeys(rows)
    ensures var u := Upsert(rows, nextId, userId, date, lunch, dinner);
      && CountKey(u.rows, userId, date) == 1
      && u.meal in u.rows && HasKey(u.meal, userId, date)
      && u.meal.lunch == lunch && u.meal.dinner == dinner
  {
    var u := Upsert(rows, nextId, userId, date, lunch, dinner);
    match FindByKey(rows, userId, date)
    case Some(i) =>
      CountKeyOne(u.rows, i, userId, date);
    case None =>
      CountKeyOne(u.rows, |rows|, userId, date);
  }

  /** An existing entry keeps its id and position; only lunch and dinner change; the size stays. */
  lemma UpsertUpdatesInPlace(rows: seq<Meal>, nextId: nat, userId: string, date: int, lunch: int, dinner: int, i: nat)
    requires i < |rows| && HasKey(rows[i], userId, date)
    requires UniqueKeys(rows)
    ensures var u := Upsert(rows, nextId, userId, date, lunch, dinner);
      && |u.rows| == |rows| && u.nextId == nextId
      && u.rows[i] == Meal(rows[i].id, userId, date, lunch, dinner)
      && (forall j :: 0 <= j < |rows| && j != i ==> u.rows[j] == rows[j])
  {
    var r := FindByKey(rows, userId, date);
    assert r == Some(i);
  }

  /** A new key adds exactly one row, with a fresh id, at the end; nothing else changes. */
  lemma UpsertCreates(rows: seq<Meal>, nextId: nat, userId: string, date: int, lunch: int, dinner: int)
    requires forall j :: 0 <= j < |rows| ==> !HasKey(rows[j], userId, date)
    requires IdsBelow(rows, nextId)
    ensures var u := Upsert(rows, nextId, userId, date, lunch, dinner);
      && u.rows == rows + [u.meal] && u.meal == Meal(nextId, userId, date, lunch, dinner)
      && (forall j :: 0 <= j < |rows| ==> rows[j].id != u.meal.id)
      && u.nextId == nextId + 1
  {
  }

  /** Rows with any other key are the same before and after, at the same positions. */
  lemma UpsertLeavesOtherKeys(rows: seq<Meal>, nextId: nat, userId: string, date: int, lunch: int, dinner: int)
    ensures var u := Upsert(rows, nextId, userId, date, lunch, dinner);
      && |rows| <= |u.rows| <= |rows| + 1
      && forall j :: 0 <= j < |rows| && !HasKey(rows[j], userId, date) ==> u.rows[j] == rows[j]
  {
  }

  // ---- GET ----

  /** The Prisma `where` object of a GET, built field by field. */
  datatype DateFilter = DateFilter(gte: Option<int>, lte: Option<int>)
  datatype Where = Where(userId: Option<string>, date: Option<DateFilter>)

  function BuildWhere(q: MealQuery): Where
  {
    var userId := if Truthy(q.userId) then q.userId else None;
    var date := if q.startDate.Some? || q.endDate.Some? then Some(DateFilter(q.startDate, q.endDate)) else None;
    Where(userId, date)
  }

  predicate MatchesWhere(w: Where, m: Meal)
  {
    && (w.userId.Some? ==> m.userId == w.userId.value)
    && (w.date.Some? ==>
          && (w.date.value.gte.Some? ==> w.date.value.gte.value <= m.date)
          && (w.date.value.lte.Some? ==> m.date <= w.date.value.lte.value))
  }

  /** What a GET asks for, stated on the query itself. */
  predicate Wanted(q: MealQuery, m: Meal)
  {
    && (Truthy(q.userId) ==> m.userId == q.userId.value)
    && (q.startDate.Some? ==> q.startDate.value <= m.date)
    && (q.endDate.Some? ==> m.date <= q.endDate.value)
  }

  /** The `where` object selects exactly the rows the query asks for. */
  lemma WhereMeansQuery(q: MealQuery, m: Meal)
    ensures MatchesWhere(BuildWhere(q), m) <==> Wanted(q, m)
  {
  }

  /** Rows in table order that satisfy a where object. */
  function Select(rows: seq<Meal>, w: Where): seq<Meal>
  {
    if |rows| == 0 then []
    else
      var rest := Select(rows[..|rows| - 1], w);
      if MatchesWhere(w, rows[|rows| - 1]) then rest + [rows[|rows| - 1]] else rest
  }

  ghost predicate DateDescending(s: seq<Meal>)
  {
    forall i, j :: 0 <= i < j < |s| ==> s[i].date >= s[j].date
  }

  /** Puts m into a date-descending list, after the entries with the same or a later date. */
  function InsertByDate(s: seq<Meal>, m: Meal): (r: seq<Meal>)
    requires DateDescending(s)
    ensures DateDescending(r)
    ensures multiset(r) == multiset(s) + multiset{m}
  {
    if |s| == 0 then [m]
    else if s[0].date >= m.date then
      var tail := InsertByDate(s[1..], m);
      assert s == [s[0]] + s[1..];
      LaterInTail(s, m, tail);
      [s[0]] + tail
    else [m] + s
  }

  lemma LaterInTail(s: seq<Meal>, m: Meal, tail: seq<Meal>)
    requires |s| > 0 && DateDescending(s) && s[0].date >= m.date
    requires multiset(tail) == multiset(s[1..]) + multiset{m}
    ensures forall k :: 0 <= k < |tail| ==> tail[k].date <= s[0].date
  {
    forall k | 0 <= k < |tail| ensures tail[k].date <= s[0].date {
      assert tail[k] in multiset(tail);
      assert tail[k] == m || tail[k] in s[1..];
    }
  }

  class MealTable {
    var rows: seq<Meal>
    var nextId: nat

    ghost predicate Valid()
      reads this
    {
      UniqueKeys(rows) && UniqueIds(rows) && IdsBelow(rows, nextId)
    }

    constructor ()
      ensures Valid() && rows == [] && nextId == 0
    {
      rows, nextId := [], 0;
    }

    /** POST /api/meals. */
    method Post(session: Option<Session>, body: MealBody) returns (resp: PostResponse)
      requires Valid()
      modifies this
      ensures Valid()
      ensures !IsAdmin(session) ==> resp == Unauthorized && rows == old(rows) && nextId == old(nextId)
      ensures IsAdmin(session) && !(Truthy(body.userId) && body.date.Some?) ==>
        resp == BadRequest && rows == old(rows) && nextId == old(nextId)
      ensures IsAdmin(session) && Truthy(body.userId) && body.date.Some? ==>
        var u := Upsert(old(rows), old(nextId), body.userId.value, body.date.value, OrZero(body.lunch), OrZero(body.dinner));
        && rows == u.rows && nextId == u.nextId && resp == Created(u.meal)
    {
      if !IsAdmin(session) {
        return Unauthorized;
      }
      if !Truthy(body.userId) || body.date.None? {
        return BadRequest;
      }
      var userId, date := body.userId.value, body.date.value;
      var lunch, dinner := OrZero(body.lunch), OrZero(body.dinner);
      UpsertKeepsInvariant(rows, nextId, userId, date, lunch, dinner);
      var existing := FindByKey(rows, userId, date);
      if existing.Some? {
        var i := existing.value;
        var updated := rows[i].(lunch := lunch, dinner := dinner);
        rows := rows[i := updated];
        resp := Created(updated);
      } else {
        var created := Meal(nextId, userId, date, lunch, dinner);
        rows := rows + [created];
        nextId := nextId + 1;
        resp := Created(created);
      }
    }

    /** GET /api/meals: the matching rows, latest date first. */
    method Get(session: Option<Session>, q: MealQuery) returns (resp: GetResponse)
      ensures session.None? <==> resp == NotSignedIn
      ensures resp.Listed? ==> DateDescending(resp.meals)
      ensures resp.Listed? ==> multiset(resp.meals) == multiset(Select(rows, BuildWhere(q)))
      ensures resp.Listed? ==> forall m :: m in resp.meals <==> m in rows && Wanted(q, m)
    {
      if session.None? {
        return NotSignedIn;
      }
      var where := BuildWhere(q);
      var found: seq<Meal> := [];
      for i := 0 to |rows|
        invariant DateDescending(found)
        invariant multiset(found) == multiset(Select(rows[..i], where))
      {
        assert rows[..i + 1][..i] == rows[..i];
        if MatchesWhere(where, rows[i]) {
          found := InsertByDate(found, rows[i]);
        }
      }
      assert rows[..|rows|] == rows;
      SelectMembers(rows, where);
      forall m ensures m in found <==> m in rows && Wanted(q, m) {
        WhereMeansQuery(q, m);
        assert m in found <==> m in multiset(found);
      }
      resp := Listed(found);
    }
  }

  lemma {:induction false} SelectMembers(rows: seq<Meal>, w: Where)
    ensures forall m :: m in Select(rows, w) <==> m in rows && MatchesWhere(w, m)
  {
    if |rows| > 0 {
      var init := rows[..|rows| - 1];
      SelectMembers(init, w);
      assert rows == init + [rows[|rows| - 1]];
    }
  }
}
