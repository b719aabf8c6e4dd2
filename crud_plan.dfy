/** The plan queries (main-app/app/crud/plan.py) over the rows of the `plans`
    table.

    `created_at` is a timestamp column and is kept as an integer (an instant on
    a fixed scale); `start_date` is a date. Both columns are NOT NULL. */
module CrudPlan {
  import opened Wrappers
  import opened Values
  import opened CrudBase

  /** The sort key of a column value: dates compare as (year, month, day),
      timestamps by their integer instant. */
  function SortKey(v: Value): int {
    match v
    case VInt(i) => i
    case VDate(d) => d.year * 10000 + d.month * 100 + d.day
    case _ => 0
  }

  function Key(r: Record, f: string): int {
    SortKey(FieldOf(r, f))
  }

  /** `ORDER BY f DESC`: no row sorts before a row with a larger key. */
  predicate SortedDesc(rows: seq<Record>, f: string) {
    forall i, j :: 0 <= i < j < |rows| ==> Key(rows[i], f) >= Key(rows[j], f)
  }

  /** One insertion step: `x` goes before the first row with a key not above its own. */
  function Insert(x: Record, rows: seq<Record>, f: string): (r: seq<Record>)
    ensures multiset(r) == multiset(rows) + multiset{x}
    ensures |r| == |rows| + 1
    decreases |rows|
  {
    if rows == [] || Key(x, f) >= Key(rows[0], f) then
      [x] + rows
    else
      var rest := Insert(x, rows[1..], f);
      assert rows == [rows[0]] + rows[1..];
      assert multiset([rows[0]] + rest) == multiset{rows[0]} + multiset(rest);
      [rows[0]] + rest
  }

  /** Inserting below a bound stays below it. */
  lemma {:induction false} InsertBounded(x: Record, rows: seq<Record>, f: string, bound: int)
    requires Key(x, f) <= bound
    requires forall i :: 0 <= i < |rows| ==> Key(rows[i], f) <= bound
    ensures forall i :: 0 <= i < |Insert(x, rows, f)| ==> Key(Insert(x, rows, f)[i], f) <= bound
    decreases |rows|
  {
    if !(rows == [] || Key(x, f) >= Key(rows[0], f)) {
      InsertBounded(x, rows[1..], f, bound);
    }
  }

  lemma {:induction false} InsertSorted(x: Record, rows: seq<Record>, f: string)
    requires SortedDesc(rows, f)
    ensures SortedDesc(Insert(x, rows, f), f)
    decreases |rows|
  {
    if rows == [] || Key(x, f) >= Key(rows[0], f) {
      InsertAtFront(x, rows, f);
    } else {
      InsertSorted(x, rows[1..], f);
      InsertBounded(x, rows[1..], f, Key(rows[0], f));
      ConsSorted(rows[0], Insert(x, rows[1..], f), f);
    }
  }

  /** A row with a key at least the first key goes in front of a sorted list. */
  lemma InsertAtFront(x: Record, rows: seq<Record>, f: string)
    requires SortedDesc(rows, f)
    requires rows == [] || Key(x, f) >= Key(rows[0], f)
    ensures SortedDesc([x] + rows, f)
  {
    var r := [x] + rows;
    forall i, j | 0 <= i < j < |r| ensures Key(r[i], f) >= Key(r[j], f) {
      assert r[j] == rows[j - 1];
      if i > 0 {
        assert r[i] == rows[i - 1];
      } else if j > 1 {
        assert Key(rows[0], f) >= Key(rows[j - 1], f);
      }
    }
  }

  /** A head whose key bounds a sorted tail keeps the list sorted. */
  lemma ConsSorted(h: Record, rest: seq<Record>, f: string)
    requires SortedDesc(rest, f)
    requires forall i :: 0 <= i < |rest| ==> Key(rest[i], f) <= Key(h, f)
    ensures SortedDesc([h] + rest, f)
  {
    var r := [h] + rest;
    forall i, j | 0 <= i < j < |r| ensures Key(r[i], f) >= Key(r[j], f) {
      assert r[j] == rest[j - 1];
      if i > 0 {
        assert r[i] == rest[i - 1];
      }
    }
  }

  /** The rows in descending order of column `f`: a sorted permutation. */
  function SortDesc(rows: seq<Record>, f: string): (r: seq<Record>)
    ensures SortedDesc(r, f)
    ensures multiset(r) == multiset(rows)
    ensures |r| == |rows|
    decreases |rows|
  {
    if rows == [] then []
    else
      assert rows == [rows[0]] + rows[1..];
      var rest := SortDesc(rows[1..], f);
      InsertSorted(rows[0], rest, f);
      Insert(rows[0], rest, f)
  }

  /** `s` is `rows` in descending order of `f`: a sorted permutation. */
  predicate SortedPermutation(s: seq<Record>, rows: seq<Record>, f: string) {
    multiset(s) == multiset(rows) && SortedDesc(s, f)
  }

  /** `get_by_user_id`: the user's plans, newest `created_at` first, then
      OFFSET `skip` LIMIT `limit` (SQL orders before it slices). */
  function GetByUserId(rows: seq<Record>, userId: int, skip: nat, limit: nat): (r: seq<Record>)
    ensures |r| <= limit
    ensures forall x :: x in r ==> x in rows && FieldOf(x, "user_id") == VInt(userId)
    ensures SortedDesc(r, "created_at")
    ensures exists s :: SortedPermutation(s, Where(rows, "user_id", VInt(userId)), "created_at") && r == Slice(s, skip, limit)
  {
    var mine := Where(rows, "user_id", VInt(userId));
    var sorted := SortDesc(mine, "created_at");
    WindowOfSorted(sorted, mine, "created_at", skip, limit);
    Slice(sorted, skip, limit)
  }

  /** A window of a sorted permutation is sorted and draws only on the
      permuted rows. */
  lemma WindowOfSorted(s: seq<Record>, rows: seq<Record>, f: string, skip: nat, limit: nat)
    requires SortedPermutation(s, rows, f)
    ensures forall x :: x in Slice(s, skip, limit) ==> x in rows
    ensures SortedDesc(Slice(s, skip, limit), f)
  {
    var r := Slice(s, skip, limit);
    forall x | x in r ensures x in rows {
      assert x in multiset(s);
    }
    forall i, j | 0 <= i < j < |r| ensures Key(r[i], f) >= Key(r[j], f) {
      assert r[i] == s[skip + i] && r[j] == s[skip + j];
    }
  }

  /** Without OFFSET and with a LIMIT that covers them, the listing holds
      every plan of the user exactly as often as the table does. */
  lemma GetByUserIdComplete(rows: seq<Record>, userId: int, limit: nat)
    requires limit >= |rows|
    ensures multiset(GetByUserId(rows, userId, 0, limit)) == multiset(Where(rows, "user_id", VInt(userId)))
  {
    var mine := Where(rows, "user_id", VInt(userId));
    var sorted := SortDesc(mine, "created_at");
    assert |sorted| <= limit;
    assert Slice(sorted, 0, limit) == sorted[0..] == sorted;
    assert GetByUserId(rows, userId, 0, limit) == sorted;
  }

  /** `get_user_plan`: the plan with that id only when it belongs to the user. */
  function GetUserPlan(rows: seq<Record>, userId: int, planId: int): (r: Option<Record>)
    requires UniqueOn(rows, "id")
    ensures r.Some? <==> exists i :: 0 <= i < |rows| && FieldOf(rows[i], "id") == VInt(planId) && FieldOf(rows[i], "user_id") == VInt(userId)
    ensures r.Some? ==> r.value in rows && FieldOf(r.value, "id") == VInt(planId) && FieldOf(r.value, "user_id") == VInt(userId)
  {
    match SelectById(rows, planId)
    case Some(p) =>
      if FieldOf(p, "user_id") == VInt(userId) then Some(p)
      else
        assert forall i :: 0 <= i < |rows| && FieldOf(rows[i], "id") == VInt(planId) ==> rows[i] == p by {
          var j :| 0 <= j < |rows| && rows[j] == p;
          forall i | 0 <= i < |rows| && FieldOf(rows[i], "id") == VInt(planId) ensures rows[i] == p {
            SameIdSameRow(rows, i, j);
          }
        }
        None
    case None => None
  }

  /** On unique ids, two rows with the same non-NULL id are the same row. */
  lemma SameIdSameRow(rows: seq<Record>, i: nat, j: nat)
    requires UniqueOn(rows, "id")
    requires i < |rows| && j < |rows| && FieldOf(rows[i], "id") == FieldOf(rows[j], "id") != VNone
    ensures i == j
  {
  }

  /** Another user's plan id never reaches the caller. */
  lemma OtherUsersPlanHidden(rows: seq<Record>, userId: int, planId: int, i: nat)
    requires UniqueOn(rows, "id")
    requires i < |rows| && FieldOf(rows[i], "id") == VInt(planId) && FieldOf(rows[i], "user_id") != VInt(userId)
    ensures GetUserPlan(rows, userId, planId) == None
  {
    forall j | 0 <= j < |rows| && FieldOf(rows[j], "id") == VInt(planId)
      ensures FieldOf(rows[j], "user_id") != VInt(userId)
    {
      SameIdSameRow(rows, i, j);
    }
  }

  /** `get_active_plans`: every plan of the user with status "active", latest
      `start_date` first, without a limit. */
  function GetActivePlans(rows: seq<Record>, userId: int): (r: seq<Record>)
    ensures forall x :: x in r ==> x in rows && FieldOf(x, "user_id") == VInt(userId) && FieldOf(x, "status") == VStr("active")
    ensures forall i :: 0 <= i < |rows| && FieldOf(rows[i], "user_id") == VInt(userId) && FieldOf(rows[i], "status") == VStr("active") ==> rows[i] in r
    ensures SortedDesc(r, "start_date")
    ensures multiset(r) == multiset(Where(Where(rows, "user_id", VInt(userId)), "status", VStr("active")))
  {
    var mine := Where(rows, "user_id", VInt(userId));
    var active := Where(mine, "status", VStr("active"));
    forall i | 0 <= i < |rows| && FieldOf(rows[i], "user_id") == VInt(userId) && FieldOf(rows[i], "status") == VStr("active")
      ensures rows[i] in active
    {
      var j :| 0 <= j < |mine| && mine[j] == rows[i];
    }
    var r := SortDesc(active, "start_date");
    assert forall x :: x in r <==> x in multiset(r);
    assert forall x :: x in active <==> x in multiset(active);
    r
  }
}
