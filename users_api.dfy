/** The user endpoints (main-app/app/api/v1/users.py). Each first resolves
    `get_current_user` against the same table, then validates the request
    body (status 422), then runs the handler. */
module UsersApi {
  import opened Wrappers
  import opened Values
  import opened Http
  import opened CrudBase
  import opened CrudUser
  import opened Deps
  import opened UserSchema

  const UnprocessableBody: HttpError := HttpException(422, "Unprocessable Entity")
  const UserMissing: HttpError := HttpException(404, "User not found")
  const ExternalIdTaken: HttpError := HttpException(400, "User with this external_id already exists")
  const PhoneTaken: HttpError := HttpException(400, "User with this phone already exists")

  /** `get_users`: the guard, then `get_multi(skip, limit)`. */
  function GetUsers(users: Table, xTelegramId: string, skip: nat, limit: nat): (r: Result<seq<Record>, HttpError>)
    reads users
    ensures GetCurrentUser(users.rows, xTelegramId).Err? ==> r == Err(GetCurrentUser(users.rows, xTelegramId).error)
    ensures GetCurrentUser(users.rows, xTelegramId).Ok? ==> r.Ok?
    ensures r.Ok? ==>
      && |r.value| == (if skip >= |users.rows| then 0 else if limit < |users.rows| - skip then limit else |users.rows| - skip)
      && forall k :: 0 <= k < |r.value| ==> skip + k < |users.rows| && r.value[k] == users.rows[skip + k]
  {
    match GetCurrentUser(users.rows, xTelegramId)
    case Err(e) => Err(e)
    case Ok(_) => Ok(users.GetMulti(skip, limit))
  }

  /** `get_user`: 404 for an unknown id. */
  function GetUser(users: Table, xTelegramId: string, userId: int): (r: Result<Record, HttpError>)
    reads users
    requires users.Valid()
    ensures GetCurrentUser(users.rows, xTelegramId).Err? ==> r == Err(GetCurrentUser(users.rows, xTelegramId).error)
    ensures GetCurrentUser(users.rows, xTelegramId).Ok? ==>
      (r == Err(UserMissing) <==> forall i :: 0 <= i < |users.rows| ==> FieldOf(users.rows[i], "id") != VInt(userId))
    ensures GetCurrentUser(users.rows, xTelegramId).Ok? ==>
      (r.Ok? <==> exists i :: 0 <= i < |users.rows| && FieldOf(users.rows[i], "id") == VInt(userId))
    ensures r.Ok? ==> r.value in users.rows && FieldOf(r.value, "id") == VInt(userId)
  {
    match GetCurrentUser(users.rows, xTelegramId)
    case Err(e) => Err(e)
    case Ok(_) =>
      match users.Get(userId)
      case None => Err(UserMissing)
      case Some(u) => Ok(u)
  }

  /** `create_user`: refused with 400 when the `external_id` is taken, then
      when the phone is taken; otherwise one row is inserted. */
  method CreateUser(users: Table, xTelegramId: string, userIn: UserCreate, serverDefaults: Record)
    returns (r: Result<Record, HttpError>)
    requires users.Valid()
    modifies users
    ensures users.Valid()
    ensures r.Err? ==> users.rows == old(users.rows)
    ensures GetCurrentUser(old(users.rows), xTelegramId).Err? ==> r == Err(GetCurrentUser(old(users.rows), xTelegramId).error)
    ensures GetCurrentUser(old(users.rows), xTelegramId).Ok? ==>
      if CreateErrors(userIn) != {} then r == Err(UnprocessableBody)
      else if GetByExternalId(old(users.rows), userIn.externalId).OneRow? then r == Err(ExternalIdTaken)
      else if GetByExternalId(old(users.rows), userIn.externalId) == NoRow && GetByPhone(old(users.rows), userIn.phone).OneRow? then r == Err(PhoneTaken)
      else if GetByExternalId(old(users.rows), userIn.externalId) == NoRow && GetByPhone(old(users.rows), userIn.phone) == NoRow then r.Ok?
      else r == Err(MultipleResultsFound)
    ensures r.Ok? ==>
      (&& users.rows == old(users.rows) + [r.value]
       && forall k :: k in CreateDump(userIn) ==> k in r.value && r.value[k] == CreateDump(userIn)[k])
    ensures r.Ok? && UniqueOn(old(users.rows), "external_id") && UniqueOn(old(users.rows), "phone") ==>
      UniqueOn(users.rows, "external_id") && UniqueOn(users.rows, "phone")
  {
    var guard := GetCurrentUser(users.rows, xTelegramId);
    if guard.Err? {
      return Err(guard.error);
    }
    if CreateErrors(userIn) != {} {
      return Err(UnprocessableBody);
    }
    match GetByExternalId(users.rows, userIn.externalId) {
      case OneRow(_) => return Err(ExternalIdTaken);
      case ManyRows => return Err(MultipleResultsFound);
      case NoRow =>
    }
    match GetByPhone(users.rows, userIn.phone) {
      case OneRow(_) => return Err(PhoneTaken);
      case ManyRows => return Err(MultipleResultsFound);
      case NoRow =>
    }
    var created := InsertCheckedUser(users, userIn, serverDefaults);
    r := Ok(created);
  }

  /** `crud.user.create` once both lookups found nothing: the new row holds
      the dumped body, and a table unique on `external_id` and phone stays so. */
  method InsertCheckedUser(users: Table, userIn: UserCreate, serverDefaults: Record) returns (created: Record)
    requires users.Valid()
    requires GetByExternalId(users.rows, userIn.externalId) == NoRow && GetByPhone(users.rows, userIn.phone) == NoRow
    modifies users
    ensures users.Valid()
    ensures users.rows == old(users.rows) + [created]
    ensures forall k :: k in CreateDump(userIn) ==> k in created && created[k] == CreateDump(userIn)[k]
    ensures UniqueOn(old(users.rows), "external_id") && UniqueOn(old(users.rows), "phone") ==>
      UniqueOn(users.rows, "external_id") && UniqueOn(users.rows, "phone")
  {
    var dump := CreateDump(userIn);
    ghost var before := users.rows;
    created := users.Create(dump, serverDefaults);
    if UniqueOn(before, "external_id") && UniqueOn(before, "phone") {
      AppendKeepsUnique(before, created, "external_id");
      AppendKeepsUnique(before, created, "phone");
    }
  }

  /** `update_user`: 404 for an unknown id, otherwise the fields the request
      set are written to that user and to no other row. */
  method UpdateUser(users: Table, xTelegramId: string, userId: int, userIn: UserUpdate)
    returns (r: Result<Record, HttpError>)
    requires users.Valid()
    modifies users
    ensures users.Valid()
    ensures r.Err? ==> users.rows == old(users.rows)
    ensures GetCurrentUser(old(users.rows), xTelegramId).Err? ==> r == Err(GetCurrentUser(old(users.rows), xTelegramId).error)
    ensures GetCurrentUser(old(users.rows), xTelegramId).Ok? && UpdateErrors(userIn) != {} ==> r == Err(UnprocessableBody)
    ensures GetCurrentUser(old(users.rows), xTelegramId).Ok? && UpdateErrors(userIn) == {} ==>
      (r == Err(UserMissing) <==> forall i :: 0 <= i < |old(users.rows)| ==> FieldOf(old(users.rows)[i], "id") != VInt(userId))
    ensures GetCurrentUser(old(users.rows), xTelegramId).Ok? && UpdateErrors(userIn) == {} ==>
      (r.Ok? <==> exists i :: 0 <= i < |old(users.rows)| && FieldOf(old(users.rows)[i], "id") == VInt(userId))
    ensures r.Ok? ==>
      (&& users.rows == ApplyUpdate(old(users.rows), userId, UpdateData(UpdateInputOf(userIn)))
       && FieldOf(r.value, "id") == VInt(userId))
  {
    var guard := GetCurrentUser(users.rows, xTelegramId);
    if guard.Err? {
      return Err(guard.error);
    }
    if UpdateErrors(userIn) != {} {
      return Err(UnprocessableBody);
    }
    var found := users.Get(userId);
    if found.None? {
      return Err(UserMissing);
    }
    var updated := users.Update(userId, UpdateInputOf(userIn));
    r := Ok(updated);
  }

  /** `delete_user`: 404 for an unknown id, otherwise the user is removed. */
  method DeleteUser(users: Table, xTelegramId: string, userId: int) returns (r: Result<(), HttpError>)
    requires users.Valid()
    modifies users
    ensures users.Valid()
    ensures r.Err? ==> users.rows == old(users.rows)
    ensures GetCurrentUser(old(users.rows), xTelegramId).Err? ==> r == Err(GetCurrentUser(old(users.rows), xTelegramId).error)
    ensures GetCurrentUser(old(users.rows), xTelegramId).Ok? ==>
      (r == Err(UserMissing) <==> forall i :: 0 <= i < |old(users.rows)| ==> FieldOf(old(users.rows)[i], "id") != VInt(userId))
    ensures GetCurrentUser(old(users.rows), xTelegramId).Ok? ==>
      (r.Ok? <==> exists i :: 0 <= i < |old(users.rows)| && FieldOf(old(users.rows)[i], "id") == VInt(userId))
    ensures r.Ok? ==>
      (&& users.rows == Except(old(users.rows), "id", VInt(userId))
       && forall i :: 0 <= i < |users.rows| ==> FieldOf(users.rows[i], "id") != VInt(userId))
  {
    var guard := GetCurrentUser(users.rows, xTelegramId);
    if guard.Err? {
      return Err(guard.error);
    }
    var removed := users.Delete(userId);
    if removed.None? {
      return Err(UserMissing);
    }
    r := Ok(());
  }
}
