/** The authorization guard every protected endpoint depends on
    (main-app/app/api/deps.py, `get_current_user`). */
module Deps {
  import opened Wrappers
  import opened Values
  import opened Http
  import opened CrudBase
  import opened CrudUser

  const UserNotFound: HttpError := HttpException(401, "User not found. Please authorize first.")
  const UserNotAuthorized: HttpError := HttpException(401, "User not authorized. Please complete Yandex ID authorization.")

  /** `get_current_user(x_telegram_id)`: the user whose `external_id` is the
      header, provided it has a truthy `yandex_id`; 401 otherwise. */
  function GetCurrentUser(rows: seq<Record>, xTelegramId: string): (r: Result<Record, HttpError>)
    ensures r.Ok? ==> r.value in rows && FieldOf(r.value, "external_id") == VStr(xTelegramId) && Truthy(FieldOf(r.value, "yandex_id"))
    ensures r == Err(UserNotFound) <==> forall i :: 0 <= i < |rows| ==> FieldOf(rows[i], "external_id") != VStr(xTelegramId)
  {
    match GetByExternalId(rows, xTelegramId)
    case NoRow => Err(UserNotFound)
    case ManyRows => Err(MultipleResultsFound)
    case OneRow(user) =>
      if !Truthy(FieldOf(user, "yandex_id")) then Err(UserNotAuthorized)
      else Ok(user)
  }

  /** On a table whose `external_id` is unique: the guard passes exactly for
      a user with that id and a truthy `yandex_id`, and fails with the
      "not authorized" 401 exactly for such a user whose `yandex_id` is
      `None` or empty. */
  lemma GuardDecision(rows: seq<Record>, xTelegramId: string)
    requires UniqueOn(rows, "external_id")
    ensures GetCurrentUser(rows, xTelegramId).Ok? <==>
      exists i :: 0 <= i < |rows| && FieldOf(rows[i], "external_id") == VStr(xTelegramId) && Truthy(FieldOf(rows[i], "yandex_id"))
    ensures GetCurrentUser(rows, xTelegramId) == Err(UserNotAuthorized) <==>
      exists i :: 0 <= i < |rows| && FieldOf(rows[i], "external_id") == VStr(xTelegramId) && !Truthy(FieldOf(rows[i], "yandex_id"))
  {
    var v := VStr(xTelegramId);
    UniqueSelectsAtMostOne(rows, "external_id", v);
    forall i | 0 <= i < |rows| && FieldOf(rows[i], "external_id") == v
      ensures GetByExternalId(rows, xTelegramId) == OneRow(rows[i])
    {
      assert rows[i] in Where(rows, "external_id", v);
    }
  }
}
