/** The Yandex ID login flow (main-app/app/api/v1/auth.py): the authorize
    redirect, the callback that links a Yandex account to the Telegram user
    named by `state`, and the authorization check.

    The two HTTP exchanges with Yandex are parameters: their status codes and
    the user-info JSON object. The settings, "today" and the outcome of the
    database commit are parameters too. */
module Auth {
  import opened Wrappers
  import opened Values
  import opened Text
  import opened Dates
  import opened Http
  import opened CrudBase
  import opened CrudUser
  import opened Deps

  const AuthorizeEndpoint: string := "https://oauth.yandex.ru/authorize?"

  const ClientIdMissing: HttpError := HttpException(500, "Yandex Client ID not configured")
  const TokenFailed: HttpError := HttpException(400, "Failed to retrieve token from Yandex")
  const UserInfoFailed: HttpError := HttpException(400, "Failed to retrieve user info from Yandex")
  const CheckNotFound: HttpError := HttpException(404, "User not found")

  /** The query of the authorize URL: `k=v` for each parameter, in insertion
      order, without percent-encoding. */
  function LoginParams(clientId: string, redirectUri: string, telegramId: string): seq<string> {
    ["response_type=code", "client_id=" + clientId, "redirect_uri=" + redirectUri, "state=" + telegramId]
  }

  /** `login_via_yandex`: 500 when the client id is not configured, otherwise
      the authorize URL carrying the Telegram id as `state`. */
  function LoginUrl(clientId: string, redirectUri: string, telegramId: string): (r: Result<string, HttpError>)
    ensures r.Err? <==> clientId == ""
    ensures r.Err? ==> r.error == ClientIdMissing
    ensures r.Ok? ==> |r.value| > |AuthorizeEndpoint| && r.value[..|AuthorizeEndpoint|] == AuthorizeEndpoint
  {
    if clientId == "" then Err(ClientIdMissing)
    else
      var url := AuthorizeEndpoint + Join("&", LoginParams(clientId, redirectUri, telegramId));
      assert url[..|AuthorizeEndpoint|] == AuthorizeEndpoint;
      Ok(url)
  }

  predicate NoAmpersand(s: string) {
    forall i :: 0 <= i < |s| ==> s[i] != '&'
  }

  /** When no value holds an `&`, splitting the query at `&` gives back the
      four parameters, in order; a value holding `&` would split apart, since
      nothing is encoded. */
  lemma LoginUrlQuery(clientId: string, redirectUri: string, telegramId: string)
    requires clientId != ""
    requires NoAmpersand(clientId) && NoAmpersand(redirectUri) && NoAmpersand(telegramId)
    ensures SplitOn(LoginUrl(clientId, redirectUri, telegramId).value[|AuthorizeEndpoint|..], '&')
         == LoginParams(clientId, redirectUri, telegramId)
  {
    var parts := LoginParams(clientId, redirectUri, telegramId);
    forall k, i | 0 <= k < |parts| && 0 <= i < |parts[k]| ensures parts[k][i] != '&' {
      if k == 1 { assert i < 10 || parts[k][i] == clientId[i - 10]; }
      if k == 2 { assert i < 13 || parts[k][i] == redirectUri[i - 13]; }
      if k == 3 { assert i < 6 || parts[k][i] == telegramId[i - 6]; }
    }
    SplitJoin(parts, '&');
    var url := LoginUrl(clientId, redirectUri, telegramId).value;
    assert url == AuthorizeEndpoint + Join("&", parts);
    assert url[|AuthorizeEndpoint|..] == Join("&", parts);
  }

  /** Python's comparison `(m1, d1) < (m2, d2)`. */
  predicate TupleLess(m1: int, d1: int, m2: int, d2: int) {
    m1 < m2 || (m1 == m2 && d1 < d2)
  }

  /** The age computed from a birth date. */
  function Age(today: Date, birth: Date): (r: int)
    ensures today.year - birth.year - 1 <= r <= today.year - birth.year
    ensures r == today.year - birth.year <==> !TupleLess(today.month, today.day, birth.month, birth.day)
  {
    today.year - birth.year - (if TupleLess(today.month, today.day, birth.month, birth.day) then 1 else 0)
  }

  /** Calendar order on (year, month, day). */
  predicate DateBefore(a: Date, b: Date) {
    a.year < b.year || (a.year == b.year && TupleLess(a.month, a.day, b.month, b.day))
  }

  /** The age is the number of birthdays passed: the `age`-th one falls on or
      before today, the next one after today; a birth date not after today
      gives a non-negative age. */
  lemma AgeCompletedYears(today: Date, birth: Date)
    ensures !DateBefore(today, Date(birth.year + Age(today, birth), birth.month, birth.day))
    ensures DateBefore(today, Date(birth.year + Age(today, birth) + 1, birth.month, birth.day))
    ensures !DateBefore(today, birth) ==> Age(today, birth) >= 0
  {
  }

  /** The age from the user-info `birthday`: `None` when it is absent, falsy
      or not a `%Y-%m-%d` date; a truthy non-string raises TypeError, which
      the handler does not catch. */
  function AgeFromBirthday(birthday: Value, today: Date): (r: Result<Option<int>, HttpError>)
    ensures !Truthy(birthday) ==> r == Ok(None)
    ensures birthday.VStr? && birthday.s != "" ==>
      r == Ok(if ParseIsoDate(birthday.s).Some? then Some(Age(today, ParseIsoDate(birthday.s).value)) else None)
    ensures r.Err? <==> Truthy(birthday) && !birthday.VStr?
  {
    if !Truthy(birthday) then Ok(None)
    else if !birthday.VStr? then Err(Unhandled("TypeError"))
    else match ParseIsoDate(birthday.s)
      case None => Ok(None)
      case Some(b) => Ok(Some(Age(today, b)))
  }

  /** A birthday `str(date)` prints is read back, so the age is that of the date. */
  lemma BirthdayRoundTrip(birth: Date, today: Date)
    requires ValidDate(birth)
    ensures AgeFromBirthday(VStr(IsoFormat(birth)), today) == Ok(Some(Age(today, birth)))
  {
    ParseFormatRoundTrip(birth);
  }

  /** `real_name or display_name`. */
  function FullName(info: map<string, Value>): (r: Value)
    ensures Truthy(DictGet(info, "real_name", VNone)) ==> r == info["real_name"]
    ensures !Truthy(DictGet(info, "real_name", VNone)) ==> r == DictGet(info, "display_name", VNone)
  {
    Or(DictGet(info, "real_name", VNone), DictGet(info, "display_name", VNone))
  }

  /** The profile fields the callback reads from the user info. */
  datatype Profile = Profile(yandexId: Value, email: Value, fullName: Value, sex: Value, age: Option<int>)

  /** The assignments made to an existing user: `yandex_id` and `email`
      always, `full_name` and `sex` when truthy, `age` when not `None`. */
  function ExistingUserChanges(p: Profile): (changes: map<string, Value>)
    ensures "yandex_id" in changes && changes["yandex_id"] == p.yandexId
    ensures "email" in changes && changes["email"] == p.email
    ensures "full_name" in changes <==> Truthy(p.fullName)
    ensures "sex" in changes <==> Truthy(p.sex)
    ensures "age" in changes <==> p.age.Some?
    ensures changes.Keys <= {"yandex_id", "email", "full_name", "sex", "age"}
    ensures forall k :: k in changes ==> changes[k] == match k
      case "yandex_id" => p.yandexId
      case "email" => p.email
      case "full_name" => p.fullName
      case "sex" => p.sex
      case _ => VInt(p.age.value)
  {
    map["yandex_id" := p.yandexId, "email" := p.email]
      + (if Truthy(p.fullName) then map["full_name" := p.fullName] else map[])
      + (if Truthy(p.sex) then map["sex" := p.sex] else map[])
      + (if p.age.Some? then map["age" := VInt(p.age.value)] else map[])
  }

  /** The attribute assignments on the existing user object, one statement
      at a time. */
  method AssignProfile(user: Record, p: Profile) returns (updated: Record)
    ensures updated == user + ExistingUserChanges(p)
  {
    updated := user;
    updated := updated["yandex_id" := p.yandexId];
    updated := updated["email" := p.email];
    ghost var changes: map<string, Value> := map["yandex_id" := p.yandexId, "email" := p.email];
    assert updated == user + changes;
    if Truthy(p.fullName) {
      updated := updated["full_name" := p.fullName];
    }
    StepAssigned(user, changes, "full_name", p.fullName, Truthy(p.fullName));
    changes := changes + (if Truthy(p.fullName) then map["full_name" := p.fullName] else map[]);
    if Truthy(p.sex) {
      updated := updated["sex" := p.sex];
    }
    StepAssigned(user, changes, "sex", p.sex, Truthy(p.sex));
    changes := changes + (if Truthy(p.sex) then map["sex" := p.sex] else map[]);
    if p.age.Some? {
      updated := updated["age" := VInt(p.age.value)];
    }
    StepAssigned(user, changes, "age", if p.age.Some? then VInt(p.age.value) else VNone, p.age.Some?);
    changes := changes + (if p.age.Some? then map["age" := VInt(p.age.value)] else map[]);
  }

  /** One conditional assignment `if c: obj.k = v` adds `k := v` to the
      changes applied so far. */
  lemma StepAssigned(user: Record, changes: map<string, Value>, k: string, v: Value, c: bool)
    ensures (if c then (user + changes)[k := v] else user + changes)
         == user + (changes + (if c then map[k := v] else map[]))
  {
  }

  /** An age of 0 is applied, while an empty name or sex keeps the stored one. */
  lemma ZeroAgeApplied(user: Record, p: Profile)
    requires p.age == Some(0) && p.fullName == VStr("") && p.sex == VNone
    ensures (user + ExistingUserChanges(p))["age"] == VInt(0)
    ensures FieldOf(user + ExistingUserChanges(p), "full_name") == FieldOf(user, "full_name")
    ensures FieldOf(user + ExistingUserChanges(p), "sex") == FieldOf(user, "sex")
  {
  }

  /** The row inserted for a Telegram id seen for the first time. */
  function NewUserRecord(state: string, p: Profile): (r: Record)
    ensures r.Keys == {"external_id", "yandex_id", "email", "full_name", "sex", "age", "role_id", "phone"}
    ensures r["external_id"] == VStr(state)
    ensures r["full_name"] == (if Truthy(p.fullName) then p.fullName else VStr("Unknown"))
    ensures r["role_id"] == VInt(1) && r["phone"] == VNone
    ensures r["yandex_id"] == p.yandexId && r["email"] == p.email && r["sex"] == p.sex
    ensures r["age"] == (if p.age.Some? then VInt(p.age.value) else VNone)
    ensures "id" !in r
  {
    map["external_id" := VStr(state), "yandex_id" := p.yandexId, "email" := p.email,
        "full_name" := Or(p.fullName, VStr("Unknown")), "sex" := p.sex,
        "age" := (if p.age.Some? then VInt(p.age.value) else VNone),
        "role_id" := VInt(1), "phone" := VNone]
  }

  /** The page the callback renders: the name of the linked user and the
      bot to return to. */
  datatype AuthSuccess = AuthSuccess(userName: Value, botUsername: string)

  /** The attributes `Settings` declares, its two URL properties included.
      With `extra = "ignore"` an environment variable adds none. */
  const SettingsAttributes: set<string> := {
    "APP_NAME", "APP_VERSION", "APP_ENV", "APP_DEBUG",
    "DB_CONNECTION", "DB_HOST", "DB_PORT", "DB_DATABASE", "DB_USERNAME", "DB_PASSWORD",
    "GC_CLIENT_ID", "GC_SCOPE", "GC_AUTH_KEY", "GC_CLIENT_SECRET", "GIGACHAT_API_KEY", "GIGACHAT_BASE_URL",
    "YANDEX_CLIENT_ID", "YANDEX_CLIENT_SECRET", "YANDEX_REDIRECT_URI",
    "API_URL", "DATABASE_URL", "DATABASE_URL_SYNC"}

  /** `Settings` has no `BOT_USERNAME`. */
  lemma BotUsernameUndeclared()
    ensures "BOT_USERNAME" !in SettingsAttributes
  {
  }

  /** Reading `settings.<name>`, whose value would be `configured`: an
      attribute the class does not declare raises AttributeError. */
  function SettingsAttr(declared: set<string>, name: string, configured: string): (r: Result<string, HttpError>)
    ensures r.Ok? <==> name in declared
    ensures r.Ok? ==> r.value == configured
    ensures r.Err? ==> r.error == Unhandled("AttributeError")
  {
    if name in declared then Ok(configured) else Err(Unhandled("AttributeError"))
  }

  /** The `TemplateResponse` returned after the commit: its context reads
      `settings.BOT_USERNAME`, so a failed read replaces the page. */
  function SuccessPage(userName: Value, botUsername: Result<string, HttpError>): (r: Result<AuthSuccess, HttpError>)
    ensures botUsername.Err? ==> r == Err(botUsername.error)
    ensures botUsername.Ok? ==> r == Ok(AuthSuccess(userName, botUsername.value))
  {
    match botUsername
    case Err(e) => Err(e)
    case Ok(bot) => Ok(AuthSuccess(userName, bot))
  }

  /** Both Yandex endpoints answered 200. */
  predicate Fetched(tokenStatus: int, userInfoStatus: int) {
    tokenStatus == 200 && userInfoStatus == 200
  }

  /** The age the callback computes from the user-info `birthday`. */
  function CallbackAge(userInfo: map<string, Value>, today: Date): (r: Result<Option<int>, HttpError>)
    ensures "birthday" !in userInfo ==> r == Ok(None)
    ensures r.Err? <==> "birthday" in userInfo && Truthy(userInfo["birthday"]) && !userInfo["birthday"].VStr?
    ensures r.Ok? && r.value.Some? ==>
      && "birthday" in userInfo && userInfo["birthday"].VStr? && ParseIsoDate(userInfo["birthday"].s).Some?
      && r.value.value == Age(today, ParseIsoDate(userInfo["birthday"].s).value)
  {
    AgeFromBirthday(DictGet(userInfo, "birthday", VNone), today)
  }

  /** The profile read from the user-info object, with the computed age. */
  function CallbackProfile(userInfo: map<string, Value>, age: Option<int>): Profile {
    Profile(DictGet(userInfo, "id", VNone), DictGet(userInfo, "default_email", VNone), FullName(userInfo),
            DictGet(userInfo, "sex", VNone), age)
  }

  /** `after` is `before` with every row equal to `user` replaced by `updated`. */
  predicate ReplacedInPlace(before: seq<Record>, after: seq<Record>, user: Record, updated: Record) {
    && |after| == |before|
    && forall i :: 0 <= i < |after| ==> after[i] == if before[i] == user then updated else before[i]
  }

  /** `after` is `before` plus one last row holding every field of `rec`. */
  predicate AppendedHolding(before: seq<Record>, after: seq<Record>, rec: Record) {
    && |after| == |before| + 1
    && after[..|before|] == before
    && forall k :: k in rec ==> k in after[|before|] && after[|before|][k] == rec[k]
  }

  /** `yandex_callback`, given the outcome `botUsername` of reading
      `settings.BOT_USERNAME`. A non-200 answer from either Yandex endpoint
      aborts with 400 before the table is read. Then the user whose
      `external_id` is `state` gets the profile assignments, or a new user is
      inserted; a failed commit of the insert is rolled back and answered with
      500. The page is built after the commit, so a failed settings read
      leaves the table changed. */
  method YandexCallback(users: Table, state: string, tokenStatus: int, userInfoStatus: int,
                        userInfo: map<string, Value>, today: Date, serverDefaults: Record,
                        commitError: Option<string>, botUsername: Result<string, HttpError>)
    returns (r: Result<AuthSuccess, HttpError>)
    requires users.Valid()
    modifies users
    ensures users.Valid()
    ensures tokenStatus != 200 ==> r == Err(TokenFailed) && users.rows == old(users.rows)
    ensures tokenStatus == 200 && userInfoStatus != 200 ==> r == Err(UserInfoFailed) && users.rows == old(users.rows)
    ensures Fetched(tokenStatus, userInfoStatus) && CallbackAge(userInfo, today).Err? ==>
      r == Err(CallbackAge(userInfo, today).error) && users.rows == old(users.rows)
    ensures Fetched(tokenStatus, userInfoStatus) && CallbackAge(userInfo, today).Ok? ==>
      var p := CallbackProfile(userInfo, CallbackAge(userInfo, today).value);
      match GetByExternalId(old(users.rows), state)
      case ManyRows => r == Err(MultipleResultsFound) && users.rows == old(users.rows)
      case OneRow(user) =>
        if commitError.Some? then r == Err(Unhandled(commitError.value)) && users.rows == old(users.rows)
        else
          && ReplacedInPlace(old(users.rows), users.rows, user, user + ExistingUserChanges(p))
          && r == SuccessPage(FieldOf(user + ExistingUserChanges(p), "full_name"), botUsername)
      case NoRow =>
        if commitError.Some? then
          r == Err(HttpException(500, "Database error: " + commitError.value)) && users.rows == old(users.rows)
        else
          && AppendedHolding(old(users.rows), users.rows, NewUserRecord(state, p))
          && r == SuccessPage(NewUserRecord(state, p)["full_name"], botUsername)
    ensures botUsername.Ok? && r.Err? ==> users.rows == old(users.rows)
    ensures botUsername.Err? ==> r.Err?
  {
    if tokenStatus != 200 {
      return Err(TokenFailed);
    }
    if userInfoStatus != 200 {
      return Err(UserInfoFailed);
    }
    var ageOutcome := CallbackAge(userInfo, today);
    if ageOutcome.Err? {
      return Err(ageOutcome.error);
    }
    var p := CallbackProfile(userInfo, ageOutcome.value);
    match GetByExternalId(users.rows, state) {
      case ManyRows =>
        return Err(MultipleResultsFound);
      case OneRow(user) =>
        if commitError.Some? {
          return Err(Unhandled(commitError.value));
        }
        var name := LinkExistingUser(users, user, p);
        r := SuccessPage(name, botUsername);
      case NoRow =>
        if commitError.Some? {
          return Err(HttpException(500, "Database error: " + commitError.value));
        }
        var name := InsertNewUser(users, NewUserRecord(state, p), serverDefaults);
        r := SuccessPage(name, botUsername);
    }
  }

  /** `yandex_callback` as written: `BOT_USERNAME` is not a declared setting,
      so the callback never answers with the page. Once Yandex answered, the
      age was read and the lookup was unambiguous, the link or the insert is
      committed and AttributeError follows. */
  method YandexCallbackAsWritten(users: Table, state: string, tokenStatus: int, userInfoStatus: int,
                                 userInfo: map<string, Value>, today: Date, serverDefaults: Record,
                                 commitError: Option<string>, configured: string)
    returns (r: Result<AuthSuccess, HttpError>)
    requires users.Valid()
    modifies users
    ensures users.Valid()
    ensures r.Err?
    ensures Fetched(tokenStatus, userInfoStatus) && CallbackAge(userInfo, today).Ok? && commitError.None? ==>
      var p := CallbackProfile(userInfo, CallbackAge(userInfo, today).value);
      match GetByExternalId(old(users.rows), state)
      case ManyRows => r == Err(MultipleResultsFound)
      case OneRow(user) =>
        && r == Err(Unhandled("AttributeError"))
        && ReplacedInPlace(old(users.rows), users.rows, user, user + ExistingUserChanges(p))
      case NoRow =>
        && r == Err(Unhandled("AttributeError"))
        && AppendedHolding(old(users.rows), users.rows, NewUserRecord(state, p))
  {
    BotUsernameUndeclared();
    r := YandexCallback(users, state, tokenStatus, userInfoStatus, userInfo, today, serverDefaults, commitError,
                        SettingsAttr(SettingsAttributes, "BOT_USERNAME", configured));
  }

  /** `yandex_callback` with `BOT_USERNAME` declared in `Settings`: once
      Yandex answered, the age was read, the lookup was unambiguous and the
      commit went through, the page names the linked user and the bot; every
      error leaves the table as it was. */
  method YandexCallbackCorrected(users: Table, state: string, tokenStatus: int, userInfoStatus: int,
                                 userInfo: map<string, Value>, today: Date, serverDefaults: Record,
                                 commitError: Option<string>, configured: string)
    returns (r: Result<AuthSuccess, HttpError>)
    requires users.Valid()
    modifies users
    ensures users.Valid()
    ensures r.Err? ==> users.rows == old(users.rows)
    ensures Fetched(tokenStatus, userInfoStatus) && CallbackAge(userInfo, today).Ok? && commitError.None? &&
            GetByExternalId(old(users.rows), state) != ManyRows ==>
      r.Ok? && r.value.botUsername == configured
    ensures r.Ok? ==> Fetched(tokenStatus, userInfoStatus) && CallbackAge(userInfo, today).Ok? && commitError.None?
  {
    r := YandexCallback(users, state, tokenStatus, userInfoStatus, userInfo, today, serverDefaults, commitError,
                        SettingsAttr(SettingsAttributes + {"BOT_USERNAME"}, "BOT_USERNAME", configured));
  }

  /** The existing-user branch: assign the profile fields, then commit the
      modified object. */
  method LinkExistingUser(users: Table, user: Record, p: Profile) returns (name: Value)
    requires users.Valid()
    modifies users
    ensures users.Valid()
    ensures ReplacedInPlace(old(users.rows), users.rows, user, user + ExistingUserChanges(p))
    ensures name == FieldOf(user + ExistingUserChanges(p), "full_name")
  {
    var updated := AssignProfile(user, p);
    assert "id" !in ExistingUserChanges(p);
    ReplaceRows(users, user, updated);
    name := FieldOf(updated, "full_name");
  }

  /** Write the modified user object back: every row equal to `user` becomes
      `updated`, which keeps the primary key. */
  method ReplaceRows(users: Table, user: Record, updated: Record)
    requires users.Valid()
    requires FieldOf(updated, "id") == FieldOf(user, "id")
    modifies users
    ensures users.Valid()
    ensures users.nextId == old(users.nextId)
    ensures ReplacedInPlace(old(users.rows), users.rows, user, updated)
  {
    users.rows := seq(|users.rows|, i requires 0 <= i < |users.rows| reads users =>
      if users.rows[i] == user then updated else users.rows[i]);
  }

  /** `db.add(new_user)` followed by a successful commit; the name is that
      of the stored user. */
  method InsertNewUser(users: Table, rec: Record, serverDefaults: Record) returns (name: Value)
    requires users.Valid() && "id" !in rec && "full_name" in rec
    modifies users
    ensures users.Valid()
    ensures AppendedHolding(old(users.rows), users.rows, rec)
    ensures name == rec["full_name"]
  {
    var created := users.Create(rec, serverDefaults);
    assert users.rows[..|old(users.rows)|] == old(users.rows);
    name := FieldOf(created, "full_name");
  }

  /** What `check_auth` answers for an existing user. */
  datatype AuthStatus = AuthStatus(authorized: bool, user: Value, yandexId: Value)

  /** `check_auth`: authorized for any user with that Telegram id, whatever
      its `yandex_id`; 404 when there is none. */
  function CheckAuth(rows: seq<Record>, telegramId: string): (r: Result<AuthStatus, HttpError>)
    ensures r == Err(CheckNotFound) <==> forall i :: 0 <= i < |rows| ==> FieldOf(rows[i], "external_id") != VStr(telegramId)
    ensures UniqueOn(rows, "external_id") ==>
      (r.Ok? <==> exists i :: 0 <= i < |rows| && FieldOf(rows[i], "external_id") == VStr(telegramId))
    ensures r.Ok? ==>
      (&& r.value.authorized
       && exists i :: 0 <= i < |rows| && FieldOf(rows[i], "external_id") == VStr(telegramId)
            && r.value.user == FieldOf(rows[i], "full_name") && r.value.yandexId == FieldOf(rows[i], "yandex_id"))
  {
    match GetByExternalId(rows, telegramId)
    case NoRow => Err(CheckNotFound)
    case ManyRows => Err(MultipleResultsFound)
    case OneRow(u) => Ok(AuthStatus(true, FieldOf(u, "full_name"), FieldOf(u, "yandex_id")))
  }

  /** `check_auth` calls a user authorized whom `get_current_user` refuses:
      one whose `yandex_id` is `None` or empty. */
  lemma CheckAuthIgnoresYandexId(rows: seq<Record>, telegramId: string, i: nat)
    requires UniqueOn(rows, "external_id")
    requires i < |rows| && FieldOf(rows[i], "external_id") == VStr(telegramId) && !Truthy(FieldOf(rows[i], "yandex_id"))
    ensures CheckAuth(rows, telegramId).Ok? && CheckAuth(rows, telegramId).value.authorized
    ensures GetCurrentUser(rows, telegramId) == Err(UserNotAuthorized)
  {
    GuardDecision(rows, telegramId);
    UniqueSelectsAtMostOne(rows, "external_id", VStr(telegramId));
    assert rows[i] in Where(rows, "external_id", VStr(telegramId));
  }
}
