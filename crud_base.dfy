/** The generic CRUD layer (main-app/app/crud/base.py) over an in-memory table.

    A row is the map from column name to value that the ORM object carries;
    a missing column reads as NULL. The session's INSERT/DELETE/flush/refresh
    become updates of the table's `rows`, and the autoincrement sequence of the
    primary key is `nextId`. */
module CrudBase {
  import opened Wrappers
  import opened Values

  type Record = map<string, Value>

  /** A column's value; an unset column is NULL. */
  function FieldOf(r: Record, f: string): Value {
    if f in r then r[f] else VNone
  }

  /** What `result.scalar_one_or_none()` does with the selected rows: `None`,
      the single row, or MultipleResultsFound. */
  datatype Lookup = NoRow | OneRow(row: Record) | ManyRows

  function ScalarOneOrNone(rows: seq<Record>): (r: Lookup)
    ensures r == NoRow <==> |rows| == 0
    ensures r.OneRow? <==> |rows| == 1
    ensures r.OneRow? ==> r.row == rows[0]
    ensures r == ManyRows <==> |rows| > 1
  {
    if |rows| == 0 then NoRow else if |rows| == 1 then OneRow(rows[0]) else ManyRows
  }

  /** `.where(Model.f == v)`, keeping the table order. Comparing with `None`
      compiles to `IS NULL`, which a missing column satisfies. */
  function Where(rows: seq<Record>, f: string, v: Value): (r: seq<Record>)
    ensures |r| <= |rows|
    ensures forall x :: x in r ==> x in rows && FieldOf(x, f) == v
    ensures forall i :: 0 <= i < |rows| && FieldOf(rows[i], f) == v ==> rows[i] in r
    decreases |rows|
  {
    if rows == [] then []
    else if FieldOf(rows[0], f) == v then [rows[0]] + Where(rows[1..], f, v)
    else Where(rows[1..], f, v)
  }

  /** The rows that do not satisfy `Model.f == v`, in table order. */
  function Except(rows: seq<Record>, f: string, v: Value): (r: seq<Record>)
    ensures forall x :: x in r ==> x in rows && FieldOf(x, f) != v
    ensures forall i :: 0 <= i < |rows| && FieldOf(rows[i], f) != v ==> rows[i] in r
    decreases |rows|
  {
    if rows == [] then []
    else if FieldOf(rows[0], f) == v then Except(rows[1..], f, v)
    else [rows[0]] + Except(rows[1..], f, v)
  }

  /** The matching and the remaining rows together are the table. */
  lemma {:induction false} WherePartition(rows: seq<Record>, f: string, v: Value)
    ensures |Where(rows, f, v)| + |Except(rows, f, v)| == |rows|
    ensures multiset(Where(rows, f, v)) + multiset(Except(rows, f, v)) == multiset(rows)
    decreases |rows|
  {
    if rows != [] {
      WherePartition(rows[1..], f, v);
      assert rows == [rows[0]] + rows[1..];
    }
  }

  /** With no row matching, nothing is selected and nothing is excluded. */
  lemma {:induction false} WhereNone(rows: seq<Record>, f: string, v: Value)
    requires forall i :: 0 <= i < |rows| ==> FieldOf(rows[i], f) != v
    ensures Where(rows, f, v) == []
    ensures Except(rows, f, v) == rows
    decreases |rows|
  {
    if rows != [] {
      WhereNone(rows[1..], f, v);
      assert [rows[0]] + rows[1..] == rows;
    }
  }

  /** Some row has value `v` in column `f`. */
  predicate AnyMatch(rows: seq<Record>, f: string, v: Value) {
    exists i :: 0 <= i < |rows| && FieldOf(rows[i], f) == v
  }

  /** Two distinct rows have value `v` in column `f`. */
  predicate TwoMatches(rows: seq<Record>, f: string, v: Value) {
    exists i, j :: 0 <= i < j < |rows| && FieldOf(rows[i], f) == v && FieldOf(rows[j], f) == v
  }

  lemma WhereNonEmpty(rows: seq<Record>, f: string, v: Value)
    ensures |Where(rows, f, v)| > 0 <==> AnyMatch(rows, f, v)
  {
    if |Where(rows, f, v)| > 0 {
      assert Where(rows, f, v)[0] in Where(rows, f, v);
    }
    if AnyMatch(rows, f, v) {
      var i :| 0 <= i < |rows| && FieldOf(rows[i], f) == v;
      assert rows[i] in Where(rows, f, v);
    }
  }

  /** A pair of matches either starts at the head or lies in the tail. */
  lemma TwoMatchesTail(rows: seq<Record>, f: string, v: Value)
    requires rows != []
    ensures TwoMatches(rows, f, v) <==>
      (FieldOf(rows[0], f) == v && AnyMatch(rows[1..], f, v)) || TwoMatches(rows[1..], f, v)
  {
    if TwoMatches(rows, f, v) {
      var i, j :| 0 <= i < j < |rows| && FieldOf(rows[i], f) == v && FieldOf(rows[j], f) == v;
      PairInTail(rows, f, v, i, j);
    }
    TailPairLifts(rows, f, v);
  }

  lemma PairInTail(rows: seq<Record>, f: string, v: Value, i: int, j: int)
    requires 0 <= i < j < |rows| && FieldOf(rows[i], f) == v && FieldOf(rows[j], f) == v
    ensures (FieldOf(rows[0], f) == v && AnyMatch(rows[1..], f, v)) || TwoMatches(rows[1..], f, v)
  {
    var tail := rows[1..];
    assert tail[j - 1] == rows[j];
    if i > 0 {
      assert tail[i - 1] == rows[i];
    }
  }

  lemma TailPairLifts(rows: seq<Record>, f: string, v: Value)
    requires rows != []
    ensures (FieldOf(rows[0], f) == v && AnyMatch(rows[1..], f, v)) || TwoMatches(rows[1..], f, v) ==>
      TwoMatches(rows, f, v)
  {
    var tail := rows[1..];
    if FieldOf(rows[0], f) == v && AnyMatch(tail, f, v) {
      var j :| 0 <= j < |tail| && FieldOf(tail[j], f) == v;
      assert rows[j + 1] == tail[j];
    } else if TwoMatches(tail, f, v) {
      var i, j :| 0 <= i < j < |tail| && FieldOf(tail[i], f) == v && FieldOf(tail[j], f) == v;
      assert rows[i + 1] == tail[i] && rows[j + 1] == tail[j];
    }
  }

  /** Two rows match exactly when the filter keeps more than one. */
  lemma {:induction false} WhereMany(rows: seq<Record>, f: string, v: Value)
    ensures |Where(rows, f, v)| > 1 <==> TwoMatches(rows, f, v)
    decreases |rows|
  {
    if rows != [] {
      WhereMany(rows[1..], f, v);
      WhereNonEmpty(rows[1..], f, v);
      TwoMatchesTail(rows, f, v);
    }
  }

  /** When row `i` is the only match, the filter keeps exactly that row. */
  lemma SingleMatch(rows: seq<Record>, f: string, v: Value, i: int)
    requires 0 <= i < |rows| && FieldOf(rows[i], f) == v
    requires forall j :: 0 <= j < |rows| && j != i ==> FieldOf(rows[j], f) != v
    ensures Where(rows, f, v) == [rows[i]]
  {
    WhereMany(rows, f, v);
    var hits := Where(rows, f, v);
    assert rows[i] in hits;
    assert hits[0] in hits;
    var k :| 0 <= k < |rows| && rows[k] == hits[0];
  }

  /** A UNIQUE column: no two rows share a non-NULL value (NULLs may repeat). */
  predicate UniqueOn(rows: seq<Record>, f: string) {
    forall i, j :: 0 <= i < j < |rows| && FieldOf(rows[i], f) != VNone ==> FieldOf(rows[i], f) != FieldOf(rows[j], f)
  }

  /** On a UNIQUE column an equality test on a non-NULL value selects at most
      one row, so `scalar_one_or_none` never raises. */
  lemma {:induction false} UniqueSelectsAtMostOne(rows: seq<Record>, f: string, v: Value)
    requires UniqueOn(rows, f) && v != VNone
    ensures |Where(rows, f, v)| <= 1
    ensures ScalarOneOrNone(Where(rows, f, v)) != ManyRows
    decreases |rows|
  {
    if rows != [] {
      if FieldOf(rows[0], f) == v {
        forall i | 0 <= i < |rows[1..]| ensures FieldOf(rows[1..][i], f) != v {
          assert rows[1..][i] == rows[i + 1];
        }
        WhereNone(rows[1..], f, v);
      } else {
        UniqueSelectsAtMostOne(rows[1..], f, v);
      }
    }
  }

  /** `select(Model).where(Model.id == id)` then `scalar_one_or_none()` on a
      table whose ids are unique. */
  function SelectById(rows: seq<Record>, id: int): (r: Option<Record>)
    requires UniqueOn(rows, "id")
    ensures r.Some? <==> exists i :: 0 <= i < |rows| && FieldOf(rows[i], "id") == VInt(id)
    ensures r.Some? ==> r.value in rows && FieldOf(r.value, "id") == VInt(id)
  {
    UniqueSelectsAtMostOne(rows, "id", VInt(id));
    assert forall i :: 0 <= i < |rows| && FieldOf(rows[i], "id") == VInt(id) ==> rows[i] in Where(rows, "id", VInt(id));
    match ScalarOneOrNone(Where(rows, "id", VInt(id)))
    case OneRow(row) =>
      assert row == Where(rows, "id", VInt(id))[0];
      assert row in rows;
      Some(row)
    case _ => None
  }

  /** Appending a row whose value in `f` is NULL or new keeps `f` unique. */
  lemma AppendKeepsUnique(rows: seq<Record>, rec: Record, f: string)
    requires UniqueOn(rows, f)
    requires FieldOf(rec, f) == VNone || forall i :: 0 <= i < |rows| ==> FieldOf(rows[i], f) != FieldOf(rec, f)
    ensures UniqueOn(rows + [rec], f)
  {
    var r := rows + [rec];
    forall i, j | 0 <= i < j < |r| && FieldOf(r[i], f) != VNone ensures FieldOf(r[i], f) != FieldOf(r[j], f) {
      assert r[i] == rows[i];
      if j < |rows| {
        assert r[j] == rows[j];
      }
    }
  }

  /** The rows after OFFSET `skip` LIMIT `limit`. */
  function Slice(rows: seq<Record>, skip: nat, limit: nat): (r: seq<Record>)
    ensures |r| == if skip >= |rows| then 0 else if limit < |rows| - skip then limit else |rows| - skip
    ensures forall k :: 0 <= k < |r| ==> r[k] == rows[skip + k]
  {
    if skip >= |rows| then [] else if limit < |rows| - skip then rows[skip..skip + limit] else rows[skip..]
  }

  /** What an update applies: every key of a dict, but only the fields a
      schema was given explicitly (`model_dump(exclude_unset=True)`). */
  datatype UpdateInput =
    | DictInput(data: map<string, Value>)
    | SchemaInput(fields: map<string, Value>, setFields: set<string>)

  function UpdateData(input: UpdateInput): (data: map<string, Value>)
    ensures input.DictInput? ==> data == input.data
    ensures input.SchemaInput? ==> data.Keys == input.fields.Keys * input.setFields
    ensures input.SchemaInput? ==> forall k :: k in data ==> data[k] == input.fields[k]
  {
    match input
    case DictInput(d) => d
    case SchemaInput(fields, setFields) => map k | k in fields && k in setFields :: fields[k]
  }

  /** The table after `setattr(obj, field, value)` for every pair of `data` on
      the row whose id is `id`. */
  function ApplyUpdate(rows: seq<Record>, id: int, data: map<string, Value>): (r: seq<Record>)
    ensures |r| == |rows|
    ensures forall i :: 0 <= i < |rows| ==>
      r[i] == if FieldOf(rows[i], "id") == VInt(id) then rows[i] + data else rows[i]
  {
    seq(|rows|, i requires 0 <= i < |rows| => if FieldOf(rows[i], "id") == VInt(id) then rows[i] + data else rows[i])
  }

  /** Applying the same update twice is applying it once. */
  lemma UpdateIdempotent(rows: seq<Record>, id: int, data: map<string, Value>)
    requires "id" !in data
    ensures ApplyUpdate(ApplyUpdate(rows, id, data), id, data) == ApplyUpdate(rows, id, data)
  {
    var once := ApplyUpdate(rows, id, data);
    forall i | 0 <= i < |rows|
      ensures ApplyUpdate(once, id, data)[i] == once[i]
    {
      assert FieldOf(once[i], "id") == FieldOf(rows[i], "id");
      if FieldOf(rows[i], "id") == VInt(id) {
        assert once[i] + data == rows[i] + data + data;
        assert rows[i] + data + data == rows[i] + data;
      }
    }
  }

  /** The update touches only the keys it names on the one row it names. */
  lemma UpdateChangesOnlyNamedFields(rows: seq<Record>, id: int, data: map<string, Value>, i: nat, f: string)
    requires i < |rows| && f !in data
    ensures FieldOf(ApplyUpdate(rows, id, data)[i], f) == FieldOf(rows[i], f)
    ensures FieldOf(rows[i], "id") != VInt(id) ==> ApplyUpdate(rows, id, data)[i] == rows[i]
  {
  }

  /** A table of one model with an autoincrement integer primary key. */
  class Table {
    var rows: seq<Record>
    var nextId: int

    /** Every row has an integer id issued by the sequence, and no two rows
        share one. */
    predicate Valid()
      reads this
    {
      nextId >= 1 && IdsIssued(rows, nextId)
    }

    constructor ()
      ensures rows == [] && nextId == 1
      ensures Valid()
    {
      rows := [];
      nextId := 1;
    }

    /** `get`: the row whose primary key is `id`, or `None`. */
    function Get(id: int): (r: Option<Record>)
      reads this
      requires Valid()
      ensures r.Some? <==> exists i :: 0 <= i < |rows| && FieldOf(rows[i], "id") == VInt(id)
      ensures r.Some? ==> r.value in rows && FieldOf(r.value, "id") == VInt(id)
    {
      SelectById(rows, id)
    }

    /** `get_multi`: at most `limit` rows, skipping the first `skip`. */
    function GetMulti(skip: nat, limit: nat): (r: seq<Record>)
      reads this
      ensures |r| <= limit
      ensures |r| == if skip >= |rows| then 0 else if limit < |rows| - skip then limit else |rows| - skip
      ensures forall k :: 0 <= k < |r| ==> r[k] == rows[skip + k]
    {
      Slice(rows, skip, limit)
    }

    /** `create`: INSERT one row built from every field of the schema dump,
        the columns it omits taking their server defaults, the id taken from
        the sequence. */
    method Create(objIn: Record, serverDefaults: Record) returns (created: Record)
      requires Valid()
      requires "id" !in objIn
      modifies this
      ensures Valid()
      ensures rows == old(rows) + [created]
      ensures nextId == old(nextId) + 1
      ensures FieldOf(created, "id") == VInt(old(nextId))
      ensures forall k :: k in objIn ==> k in created && created[k] == objIn[k]
      ensures forall k :: k in serverDefaults && k !in objIn && k != "id" ==> k in created && created[k] == serverDefaults[k]
      ensures created.Keys == objIn.Keys + serverDefaults.Keys + {"id"}
      ensures forall i :: 0 <= i < |old(rows)| ==> FieldOf(old(rows)[i], "id") != FieldOf(created, "id")
    {
      created := serverDefaults + objIn + map["id" := VInt(nextId)];
      rows := rows + [created];
      nextId := nextId + 1;
    }

    /** `update`: set each field of the update data on the row with id `id`. */
    method Update(id: int, input: UpdateInput) returns (updated: Record)
      requires Valid()
      requires exists i :: 0 <= i < |rows| && FieldOf(rows[i], "id") == VInt(id)
      requires "id" !in UpdateData(input)
      modifies this
      ensures Valid()
      ensures rows == ApplyUpdate(old(rows), id, UpdateData(input))
      ensures nextId == old(nextId)
      ensures updated in rows && FieldOf(updated, "id") == VInt(id)
      ensures old(Get(id)).Some? && updated == old(Get(id)).value + UpdateData(input)
    {
      var data := UpdateData(input);
      var idx :| 0 <= idx < |rows| && FieldOf(rows[idx], "id") == VInt(id);
      UpdateAt(rows, id, data, nextId, idx);
      updated := SetFields(rows[idx], data);
      rows := ApplyUpdate(rows, id, data);
    }

    /** `delete`: remove and return the row with id `id`; `None` and no
        change when there is none. */
    method Delete(id: int) returns (removed: Option<Record>)
      requires Valid()
      modifies this
      ensures Valid()
      ensures removed == old(Get(id))
      ensures removed.None? ==> rows == old(rows)
      ensures removed.Some? ==> rows == Except(old(rows), "id", VInt(id)) && |rows| == |old(rows)| - 1
      ensures forall i :: 0 <= i < |rows| ==> FieldOf(rows[i], "id") != VInt(id)
      ensures nextId == old(nextId)
    {
      removed := Get(id);
      if removed.Some? {
        UniqueSelectsAtMostOne(rows, "id", VInt(id));
        WherePartition(rows, "id", VInt(id));
        ghost var before := rows;
        rows := Except(rows, "id", VInt(id));
        ExceptKeepsUnique(before, "id", VInt(id));
      }
    }
  }

  /** The `for field, value in update_data.items(): setattr(obj, field, value)`
      loop: afterwards the object holds `data` over its old fields. */
  method SetFields(obj: Record, data: map<string, Value>) returns (updated: Record)
    ensures updated == obj + data
  {
    updated := obj;
    var remaining := data.Keys;
    while remaining != {}
      invariant remaining <= data.Keys
      invariant updated.Keys == obj.Keys + (data.Keys - remaining)
      invariant forall k :: k in updated ==> updated[k] == if k in data && k !in remaining then data[k] else obj[k]
      decreases |remaining|
    {
      var f :| f in remaining;
      updated := updated[f := data[f]];
      remaining := remaining - {f};
    }
  }

  /** An update without an `id` key leaves every primary key as it was. */
  lemma ApplyUpdateKeepsIds(rows: seq<Record>, id: int, data: map<string, Value>)
    requires "id" !in data
    ensures forall i :: 0 <= i < |rows| ==> FieldOf(ApplyUpdate(rows, id, data)[i], "id") == FieldOf(rows[i], "id")
  {
  }

  /** The table invariant on the rows: every row has an integer id issued by
      the sequence (below `nextId`), and no two rows share one. */
  predicate IdsIssued(rows: seq<Record>, nextId: int) {
    && (forall i :: 0 <= i < |rows| ==> FieldOf(rows[i], "id").VInt? && 1 <= FieldOf(rows[i], "id").i < nextId)
    && UniqueOn(rows, "id")
  }

  /** An update of the row at `idx`, whose id is `id`, that does not name
      `id`: the lookup finds that row, the update rewrites it, and the table
      invariant holds afterwards. */
  lemma UpdateAt(rows: seq<Record>, id: int, data: map<string, Value>, nextId: int, idx: nat)
    requires IdsIssued(rows, nextId) && "id" !in data
    requires idx < |rows| && FieldOf(rows[idx], "id") == VInt(id)
    ensures SelectById(rows, id) == Some(rows[idx])
    ensures ApplyUpdate(rows, id, data)[idx] == rows[idx] + data
    ensures FieldOf(rows[idx] + data, "id") == VInt(id)
    ensures IdsIssued(ApplyUpdate(rows, id, data), nextId)
  {
    assert rows[idx] == SelectById(rows, id).value by {
      UniqueSelectsAtMostOne(rows, "id", VInt(id));
      assert rows[idx] in Where(rows, "id", VInt(id));
    }
    ApplyUpdateKeepsIds(rows, id, data);
  }

  /** Removing rows keeps a column unique, and keeps order. */
  lemma {:induction false} ExceptKeepsUnique(rows: seq<Record>, f: string, v: Value)
    requires UniqueOn(rows, "id")
    ensures UniqueOn(Except(rows, f, v), "id")
    decreases |rows|
  {
    if rows != [] {
      ExceptKeepsUnique(rows[1..], f, v);
      var tail := Except(rows[1..], f, v);
      if FieldOf(rows[0], f) != v {
        var r := [rows[0]] + tail;
        forall i, j | 0 <= i < j < |r| && FieldOf(r[i], "id") != VNone
          ensures FieldOf(r[i], "id") != FieldOf(r[j], "id")
        {
          if i == 0 {
            assert r[j] in rows[1..];
            var k :| 0 <= k < |rows[1..]| && rows[1..][k] == r[j];
            assert rows[k + 1] == r[j];
          }
        }
      }
    }
  }
}
