/** The user and role request schemas (main-app/app/schemas/user.py): field
    bounds, the `Literal` set for `sex`, and the phone validator of
    `UserCreate`. Validation collects one error per failing field. */
module UserSchema {
  import opened Wrappers
  import opened Values
  import opened Text
  import opened CrudBase

  datatype FieldError =
    | TooLong(field: string, maxLength: nat)
    | OutOfRange(field: string)
    | NotAllowed(field: string)
    | InvalidPhone

  const PhoneMessage: string := "Phone must contain only digits, spaces, + and -"

  /** Python's `str.isdigit`: at least one character, all of them digits. */
  predicate IsDigitString(s: string) {
    |s| > 0 && forall i :: 0 <= i < |s| ==> IsDigit(s[i])
  }

  /** `v.replace("+", "").replace("-", "").replace(" ", "")`. */
  function PhoneDigits(v: string): string {
    RemoveAll(RemoveAll(RemoveAll(v, "+"), "-"), " ")
  }

  /** `validate_phone`: the value itself when it passes, unchanged. */
  function ValidatePhone(v: string): (r: Result<string, string>)
    ensures r.Ok? ==> r.value == v
    ensures r.Err? ==> r.error == PhoneMessage
  {
    if IsDigitString(PhoneDigits(v)) then Ok(v) else Err(PhoneMessage)
  }

  predicate PhoneChar(c: char) {
    c == '+' || c == '-' || c == ' ' || IsDigit(c)
  }

  /** Removing a one-character pattern removes exactly that character. */
  lemma {:induction false} RemoveCharMembers(s: string, c: char)
    ensures forall x :: x in RemoveAll(s, [c]) <==> x in s && x != c
    decreases |s|
  {
    if |s| >= 1 {
      RemoveCharMembers(s[1..], c);
      assert s == [s[0]] + s[1..];
      assert s[..1] == [s[0]];
    }
  }

  /** A phone passes exactly when it is made of digits, '+', '-' and spaces
      and holds at least one digit. */
  lemma PhoneAccepted(v: string)
    ensures ValidatePhone(v).Ok? <==>
      (forall i :: 0 <= i < |v| ==> PhoneChar(v[i])) && (exists i :: 0 <= i < |v| && IsDigit(v[i]))
  {
    var a := RemoveAll(v, "+");
    var b := RemoveAll(a, "-");
    var d := RemoveAll(b, " ");
    RemoveCharMembers(v, '+');
    RemoveCharMembers(a, '-');
    RemoveCharMembers(b, ' ');
    assert forall x :: x in d <==> x in v && x != '+' && x != '-' && x != ' ';
    if IsDigitString(d) {
      forall i | 0 <= i < |v| ensures PhoneChar(v[i]) {
        if !(v[i] == '+' || v[i] == '-' || v[i] == ' ') {
          assert v[i] in d;
        }
      }
      assert d[0] in v;
    }
    if (forall i :: 0 <= i < |v| ==> PhoneChar(v[i])) && (exists i :: 0 <= i < |v| && IsDigit(v[i])) {
      var k :| 0 <= k < |v| && IsDigit(v[k]);
      assert v[k] in d;
      forall i | 0 <= i < |d| ensures IsDigit(d[i]) {
        assert d[i] in v;
      }
    }
  }

  /** `UserCreate`: the fields of `UserBase` plus `role_id`. */
  datatype UserCreate = UserCreate(
    externalId: string, sex: Option<string>, age: Option<int>,
    fullName: string, phone: Option<string>, roleId: int)

  /** `UserUpdate`, with the set of fields the request gave explicitly. */
  datatype UserUpdate = UserUpdate(
    sex: Option<string>, age: Option<int>, fullName: Option<string>,
    phone: Option<string>, roleId: Option<int>, setFields: set<string>)

  predicate SexAllowed(s: string) {
    s == "male" || s == "female" || s == "other"
  }

  function MaxLength(field: string, s: string, n: nat): set<FieldError> {
    if |s| > n then {TooLong(field, n)} else {}
  }

  function OptionalMaxLength(field: string, s: Option<string>, n: nat): set<FieldError> {
    if s.Some? then MaxLength(field, s.value, n) else {}
  }

  function SexErrors(sex: Option<string>): set<FieldError> {
    if sex.Some? && !SexAllowed(sex.value) then {NotAllowed("sex")} else {}
  }

  function AgeErrors(age: Option<int>): set<FieldError> {
    if age.Some? && !(0 <= age.value <= 150) then {OutOfRange("age")} else {}
  }

  /** The phone of `UserCreate`: the length bound first; the validator runs
      only on a value that passed it. */
  function CreatePhoneErrors(phone: Option<string>): set<FieldError> {
    match phone
    case None => {}
    case Some(p) =>
      if |p| > 20 then {TooLong("phone", 20)}
      else if ValidatePhone(p).Err? then {InvalidPhone}
      else {}
  }

  function CreateErrors(u: UserCreate): (errs: set<FieldError>)
    ensures errs == {} <==>
      && |u.externalId| <= 100
      && (u.sex.Some? ==> u.sex.value in {"male", "female", "other"})
      && (u.age.Some? ==> 0 <= u.age.value <= 150)
      && |u.fullName| <= 255
      && (u.phone.Some? ==>
            (&& |u.phone.value| <= 20
             && (forall i :: 0 <= i < |u.phone.value| ==> PhoneChar(u.phone.value[i]))
             && (exists i :: 0 <= i < |u.phone.value| && IsDigit(u.phone.value[i]))))
  {
    PhoneAccepted(u.phone.GetOr(""));
    MaxLength("external_id", u.externalId, 100) + SexErrors(u.sex) + AgeErrors(u.age)
      + MaxLength("full_name", u.fullName, 255) + CreatePhoneErrors(u.phone)
  }

  function UpdateErrors(u: UserUpdate): (errs: set<FieldError>)
    ensures errs == {} <==>
      && (u.sex.Some? ==> u.sex.value in {"male", "female", "other"})
      && (u.age.Some? ==> 0 <= u.age.value <= 150)
      && (u.fullName.Some? ==> |u.fullName.value| <= 255)
      && (u.phone.Some? ==> |u.phone.value| <= 20)
  {
    SexErrors(u.sex) + AgeErrors(u.age) + OptionalMaxLength("full_name", u.fullName, 255)
      + OptionalMaxLength("phone", u.phone, 20)
  }

  /** `UserUpdate` has no phone validator: a phone `UserCreate` refuses for
      its format passes on update. */
  lemma UpdateSkipsPhoneFormat()
    ensures CreatePhoneErrors(Some("abc")) == {InvalidPhone}
    ensures UpdateErrors(UserUpdate(None, None, None, Some("abc"), None, {"phone"})) == {}
  {
    PhoneAccepted("abc");
    assert !PhoneChar("abc"[0]);
  }

  /** `RoleBase.type`: at most 32 characters. */
  function RoleErrors(roleType: string): (errs: set<FieldError>)
    ensures errs == {} <==> |roleType| <= 32
  {
    MaxLength("type", roleType, 32)
  }

  function OptString(s: Option<string>): Value {
    if s.Some? then VStr(s.value) else VNone
  }

  function OptInt(i: Option<int>): Value {
    if i.Some? then VInt(i.value) else VNone
  }

  /** `model_dump()` of a `UserCreate`: every field, `None` included. */
  function CreateDump(u: UserCreate): (r: Record)
    ensures r.Keys == {"external_id", "sex", "age", "full_name", "phone", "role_id"}
    ensures r["external_id"] == VStr(u.externalId) && r["phone"] == OptString(u.phone)
  {
    map["external_id" := VStr(u.externalId), "sex" := OptString(u.sex), "age" := OptInt(u.age),
        "full_name" := VStr(u.fullName), "phone" := OptString(u.phone), "role_id" := VInt(u.roleId)]
  }

  /** A `UserUpdate` handed to `update`: its fields, of which only those set
      explicitly are applied. */
  function UpdateInputOf(u: UserUpdate): (r: UpdateInput)
    ensures r.SchemaInput? && r.setFields == u.setFields
    ensures "id" !in UpdateData(r)
  {
    SchemaInput(map["sex" := OptString(u.sex), "age" := OptInt(u.age), "full_name" := OptString(u.fullName),
                    "phone" := OptString(u.phone), "role_id" := OptInt(u.roleId)], u.setFields)
  }
}
