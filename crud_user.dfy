/** The user lookups (api/app/crud/user.py) over the rows of the `users`
    table; `external_id` and `phone` are UNIQUE columns there. */
module CrudUser {
  import opened Wrappers
  import opened Values
  import opened CrudBase

  /** A lookup on column `f`: `NoRow` exactly when no row has the value, and
      a single hit is a row of the table with that value. */
  function SelectOne(rows: seq<Record>, f: string, v: Value): (r: Lookup)
    ensures r == NoRow <==> forall i :: 0 <= i < |rows| ==> FieldOf(rows[i], f) != v
    ensures r.OneRow? ==> r.row in rows && FieldOf(r.row, f) == v
    ensures r == ManyRows <==> exists i, j :: 0 <= i < j < |rows| && FieldOf(rows[i], f) == v && FieldOf(rows[j], f) == v
    ensures forall i :: 0 <= i < |rows| && FieldOf(rows[i], f) == v && OnlyMatch(rows, f, v, i) ==> r == OneRow(rows[i])
  {
    WhereMany(rows, f, v);
    SingleMatches(rows, f, v);
    var hits := Where(rows, f, v);
    if forall i :: 0 <= i < |rows| ==> FieldOf(rows[i], f) != v then
      WhereNone(rows, f, v);
      ScalarOneOrNone(hits)
    else
      var i :| 0 <= i < |rows| && FieldOf(rows[i], f) == v;
      assert rows[i] in hits;
      assert hits[0] in hits;
      ScalarOneOrNone(hits)
  }

  /** No row other than `i` has value `v` in column `f`. */
  predicate OnlyMatch(rows: seq<Record>, f: string, v: Value, i: int) {
    forall j :: 0 <= j < |rows| && j != i ==> FieldOf(rows[j], f) != v
  }

  lemma SingleMatches(rows: seq<Record>, f: string, v: Value)
    ensures forall i :: 0 <= i < |rows| && FieldOf(rows[i], f) == v && OnlyMatch(rows, f, v, i) ==>
      Where(rows, f, v) == [rows[i]]
  {
    forall i | 0 <= i < |rows| && FieldOf(rows[i], f) == v && OnlyMatch(rows, f, v, i)
      ensures Where(rows, f, v) == [rows[i]]
    {
      SingleMatch(rows, f, v, i);
    }
  }

  /** `get_by_external_id`. */
  function GetByExternalId(rows: seq<Record>, externalId: string): (r: Lookup)
    ensures r == NoRow <==> forall i :: 0 <= i < |rows| ==> FieldOf(rows[i], "external_id") != VStr(externalId)
    ensures r.OneRow? ==> r.row in rows && FieldOf(r.row, "external_id") == VStr(externalId)
    ensures r == ManyRows <==>
      exists i, j :: 0 <= i < j < |rows| && FieldOf(rows[i], "external_id") == VStr(externalId) && FieldOf(rows[j], "external_id") == VStr(externalId)
    ensures forall i ::
      (0 <= i < |rows| && FieldOf(rows[i], "external_id") == VStr(externalId) && OnlyMatch(rows, "external_id", VStr(externalId), i)) ==>
      r == OneRow(rows[i])
  {
    SelectOne(rows, "external_id", VStr(externalId))
  }

  /** A phone argument as the query sees it: `None` compares as `IS NULL`. */
  function PhoneValue(phone: Option<string>): Value {
    match phone
    case None => VNone
    case Some(p) => VStr(p)
  }

  /** `get_by_phone`. */
  function GetByPhone(rows: seq<Record>, phone: Option<string>): (r: Lookup)
    ensures r == NoRow <==> forall i :: 0 <= i < |rows| ==> FieldOf(rows[i], "phone") != PhoneValue(phone)
    ensures r.OneRow? ==> r.row in rows && FieldOf(r.row, "phone") == PhoneValue(phone)
    ensures r == ManyRows <==>
      exists i, j :: 0 <= i < j < |rows| && FieldOf(rows[i], "phone") == PhoneValue(phone) && FieldOf(rows[j], "phone") == PhoneValue(phone)
    ensures forall i ::
      (0 <= i < |rows| && FieldOf(rows[i], "phone") == PhoneValue(phone) && OnlyMatch(rows, "phone", PhoneValue(phone), i)) ==>
      r == OneRow(rows[i])
  {
    SelectOne(rows, "phone", PhoneValue(phone))
  }

  /** Because both columns are UNIQUE, neither lookup of a value finds more
      than one row; a `None` phone is not protected by the constraint. */
  lemma LookupsAtMostOne(rows: seq<Record>, externalId: string, phone: string)
    requires UniqueOn(rows, "external_id") && UniqueOn(rows, "phone")
    ensures GetByExternalId(rows, externalId) != ManyRows
    ensures GetByPhone(rows, Some(phone)) != ManyRows
  {
    UniqueSelectsAtMostOne(rows, "external_id", VStr(externalId));
    UniqueSelectsAtMostOne(rows, "phone", VStr(phone));
  }

  /** The UNIQUE constraint does not cover NULL: two users without a phone
      make `get_by_phone(None)` raise MultipleResultsFound. */
  lemma NullPhonesCollide(rows: seq<Record>, i: int, j: int)
    requires 0 <= i < j < |rows| && FieldOf(rows[i], "phone") == VNone && FieldOf(rows[j], "phone") == VNone
    ensures GetByPhone(rows, None) == ManyRows
  {
  }
}
