/** The plan endpoints (main-app/app/api/v1/plans.py): the upload that
    stores a PDF and records a pending one-month plan, the listing and the
    per-user lookup.

    The clock readings (the file-name timestamp, today's date and the
    description's minute stamp) and the outcome of the file write are
    parameters; the file contents are not modelled. */
module PlansApi {
  import opened Wrappers
  import opened Values
  import opened Text
  import opened Dates
  import opened Http
  import opened CrudBase
  import opened CrudPlan
  import opened Deps

  const UploadDir: string := "uploads/plans"
  const PdfContentType: string := "application/pdf"
  const PlanDuration: nat := 30

  const OnlyPdf: HttpError := HttpException(400, "Only PDF files are allowed")
  const PlanMissing: HttpError := HttpException(404, "Plan not found or you don't have access to it")

  /** `f"plan_{current_user.id}_{timestamp}_{file.filename}"`; a missing
      file name prints as `None`. */
  function StoredFileName(userId: int, timestamp: string, filename: Option<string>): (name: string)
    ensures |name| > 5 && name[..5] == "plan_"
  {
    "plan_" + IntToString(userId) + "_" + timestamp + "_" + (if filename.Some? then filename.value else "None")
  }

  function StoredPath(userId: int, timestamp: string, filename: Option<string>): (path: string)
    ensures |path| > |UploadDir| + 1 && path[..|UploadDir| + 1] == UploadDir + "/"
    ensures path[|UploadDir| + 1..] == StoredFileName(userId, timestamp, filename)
  {
    UploadDir + "/" + StoredFileName(userId, timestamp, filename)
  }

  /** The plan title: the file name with every ".pdf" removed when the name
      is non-empty, otherwise "План лечения от <today>". */
  function PlanTitle(filename: Option<string>, today: Date): (r: string)
    requires ValidDate(today)
    ensures filename.Some? && filename.value != "" ==> |r| <= |filename.value|
    ensures !(filename.Some? && filename.value != "") ==> |r| == 26
  {
    if filename.Some? && filename.value != "" then
      RemoveAllShrinks(filename.value, ".pdf");
      RemoveAll(filename.value, ".pdf")
    else "План лечения от " + IsoFormat(today)
  }

  /** A name that holds ".pdf" only as its suffix gets exactly that suffix cut. */
  lemma {:induction false} TitleDropsSuffix(name: string)
    requires forall i :: !OccursAt(name, ".pdf", i)
    ensures RemoveAll(name + ".pdf", ".pdf") == name
    decreases |name|
  {
    var s := name + ".pdf";
    if name == [] {
      assert s[..4] == ".pdf" && s[4..] == [];
    } else {
      assert s[..4] != ".pdf" by {
        if |name| >= 4 {
          assert s[..4] == name[..4];
          assert !OccursAt(name, ".pdf", 0);
        } else {
          assert s[|name|] == '.';
          assert ".pdf"[|name|] != '.';
        }
      }
      forall i ensures !OccursAt(name[1..], ".pdf", i) {
        assert !OccursAt(name, ".pdf", i + 1);
        if 0 <= i && i + 4 <= |name[1..]| {
          assert name[1..][i..i + 4] == name[i + 1..i + 5];
        }
      }
      TitleDropsSuffix(name[1..]);
      assert s[1..] == name[1..] + ".pdf";
      assert [name[0]] + name[1..] == name;
    }
  }

  /** A pattern character the text never holds rules out every occurrence. */
  lemma MissingCharNoOccurrence(s: string, pat: string, k: nat)
    requires k < |pat| && pat[k] !in s
    ensures forall i :: !OccursAt(s, pat, i)
  {
    forall i ensures !OccursAt(s, pat, i) {
      if 0 <= i && i + |pat| <= |s| {
        assert s[i..i + |pat|][k] == s[i + k];
        assert s[i + k] in s;
      }
    }
  }

  /** The title of "report.pdf" is "report"; the comparison is
      case-sensitive, so "SCAN.PDF" keeps its extension. */
  lemma TitleExamples(today: Date)
    requires ValidDate(today)
    ensures PlanTitle(Some("report.pdf"), today) == "report"
    ensures PlanTitle(Some("SCAN.PDF"), today) == "SCAN.PDF"
  {
    MissingCharNoOccurrence("report", ".pdf", 0);
    TitleDropsSuffix("report");
    assert "report" + ".pdf" == "report.pdf";
    MissingCharNoOccurrence("SCAN.PDF", ".pdf", 1);
    RemoveAllAbsent("SCAN.PDF", ".pdf");
  }

  /** The `PlanCreate` built by the upload, as its `model_dump()`. */
  function PlanRecord(title: string, description: string, today: Date, end: Date, path: string, userId: int): (r: Record)
    ensures r.Keys == {"title", "description", "start_date", "end_date", "status", "share_with_doctor",
                       "original_file_path", "doctor_id", "user_id"}
    ensures r["status"] == VStr("pending") && r["share_with_doctor"] == VBool(false) && r["doctor_id"] == VInt(1)
    ensures r["start_date"] == VDate(today) && r["end_date"] == VDate(end)
    ensures r["user_id"] == VInt(userId) && r["original_file_path"] == VStr(path) && r["title"] == VStr(title)
    ensures "id" !in r
  {
    map["title" := VStr(title), "description" := VStr(description), "start_date" := VDate(today),
        "end_date" := VDate(end), "status" := VStr("pending"), "share_with_doctor" := VBool(false),
        "original_file_path" := VStr(path), "doctor_id" := VInt(1), "user_id" := VInt(userId)]
  }

  /** The answer of a successful upload. */
  datatype PlanFileUpload = PlanFileUpload(id: Value, title: Value, filePath: string, message: string)

  /** `current_user.id`. */
  function IdOf(user: Record): int {
    if FieldOf(user, "id").VInt? then FieldOf(user, "id").i else 0
  }

  /** The plan the upload records for a user, or `None` when the end date
      overflows. */
  function UploadRecord(userId: int, timestamp: string, filename: Option<string>, today: Date, minuteStamp: string)
    : (r: Option<Record>)
    requires ValidDate(today)
    ensures r.Some? <==> AddDays(today, PlanDuration).Some?
    ensures r.Some? ==> r.value == PlanRecord(PlanTitle(filename, today), "Загружено из Telegram " + minuteStamp, today,
                                              AddDays(today, PlanDuration).value, StoredPath(userId, timestamp, filename), userId)
  {
    match AddDays(today, PlanDuration)
    case None => None
    case Some(end) =>
      Some(PlanRecord(PlanTitle(filename, today), "Загружено из Telegram " + minuteStamp, today, end,
                      StoredPath(userId, timestamp, filename), userId))
  }

  /** The upload's title and path are within the `PlanCreate` length limits
      (255 and 500 characters). */
  predicate UploadFits(userId: int, timestamp: string, filename: Option<string>, today: Date)
    requires ValidDate(today)
  {
    |PlanTitle(filename, today)| <= 255 && |StoredPath(userId, timestamp, filename)| <= 500
  }

  /** Building the upload's `PlanCreate`: the end date is computed among the
      arguments, so its overflow comes before the field validation. */
  function PlanCreateFor(userId: int, timestamp: string, filename: Option<string>, today: Date, minuteStamp: string)
    : (r: Result<Record, HttpError>)
    requires ValidDate(today)
    ensures AddDays(today, PlanDuration).None? ==> r == Err(Unhandled("OverflowError"))
    ensures AddDays(today, PlanDuration).Some? && !UploadFits(userId, timestamp, filename, today) ==>
      r == Err(Unhandled("ValidationError"))
    ensures AddDays(today, PlanDuration).Some? && UploadFits(userId, timestamp, filename, today) ==>
      r == Ok(UploadRecord(userId, timestamp, filename, today, minuteStamp).value)
    ensures r.Ok? ==> "id" !in r.value && "title" in r.value && r.value["title"] == VStr(PlanTitle(filename, today))
  {
    match UploadRecord(userId, timestamp, filename, today, minuteStamp)
    case None => Err(Unhandled("OverflowError"))
    case Some(rec) =>
      if !UploadFits(userId, timestamp, filename, today) then Err(Unhandled("ValidationError"))
      else Ok(rec)
  }

  /** Row `row` holds every column of `rec` with its value. */
  predicate Holds(row: Record, rec: Record) {
    forall k :: k in rec ==> k in row && row[k] == rec[k]
  }

  /** `load_plan_file`. The content type is checked before anything is
      written; a failed write is answered with 500; a title over 255 or a path
      over 500 characters fails `PlanCreate` validation, and an end date past
      year 9999 overflows, both uncaught. */
  method LoadPlanFile(users: Table, plans: Table, xTelegramId: string,
                      contentType: Option<string>, filename: Option<string>,
                      timestamp: string, today: Date, minuteStamp: string,
                      writeError: Option<string>, serverDefaults: Record)
    returns (r: Result<PlanFileUpload, HttpError>)
    requires plans.Valid() && ValidDate(today)
    modifies plans
    ensures plans.Valid()
    ensures r.Err? ==> plans.rows == old(plans.rows)
    ensures GetCurrentUser(old(users.rows), xTelegramId).Err? ==> r == Err(GetCurrentUser(old(users.rows), xTelegramId).error)
    ensures GetCurrentUser(old(users.rows), xTelegramId).Ok? && contentType != Some(PdfContentType) ==> r == Err(OnlyPdf)
    ensures GetCurrentUser(old(users.rows), xTelegramId).Ok? && contentType == Some(PdfContentType) && writeError.Some? ==>
      r == Err(HttpException(500, "Error saving file: " + writeError.value))
    ensures r.Ok? ==> GetCurrentUser(old(users.rows), xTelegramId).Ok? && contentType == Some(PdfContentType) && writeError.None?
    ensures GetCurrentUser(old(users.rows), xTelegramId).Ok? && contentType == Some(PdfContentType) && writeError.None? ==>
      var userId := IdOf(GetCurrentUser(old(users.rows), xTelegramId).value);
      && (AddDays(today, PlanDuration).None? ==> r == Err(Unhandled("OverflowError")))
      && (AddDays(today, PlanDuration).Some? && !UploadFits(userId, timestamp, filename, today) ==>
            r == Err(Unhandled("ValidationError")))
      && (AddDays(today, PlanDuration).Some? && UploadFits(userId, timestamp, filename, today) ==> r.Ok?)
    ensures r.Ok? ==>
      var userId := IdOf(GetCurrentUser(old(users.rows), xTelegramId).value);
      var rec := UploadRecord(userId, timestamp, filename, today, minuteStamp);
      && rec.Some?
      && |plans.rows| == |old(plans.rows)| + 1
      && plans.rows[..|old(plans.rows)|] == old(plans.rows)
      && Holds(plans.rows[|old(plans.rows)|], rec.value)
      && r.value == PlanFileUpload(FieldOf(plans.rows[|old(plans.rows)|], "id"), VStr(PlanTitle(filename, today)),
                                   StoredPath(userId, timestamp, filename), "Plan file uploaded successfully")
  {
    var guard := GetCurrentUser(users.rows, xTelegramId);
    if guard.Err? {
      return Err(guard.error);
    }
    if contentType != Some(PdfContentType) {
      return Err(OnlyPdf);
    }
    var userId := IdOf(guard.value);
    if writeError.Some? {
      return Err(HttpException(500, "Error saving file: " + writeError.value));
    }
    r := RecordUpload(plans, userId, timestamp, filename, today, minuteStamp, serverDefaults);
  }

  /** The part of `load_plan_file` after the file is saved: build and
      validate the `PlanCreate`, then insert it. */
  method RecordUpload(plans: Table, userId: int, timestamp: string, filename: Option<string>,
                      today: Date, minuteStamp: string, serverDefaults: Record)
    returns (r: Result<PlanFileUpload, HttpError>)
    requires plans.Valid() && ValidDate(today)
    modifies plans
    ensures plans.Valid()
    ensures r.Err? ==> plans.rows == old(plans.rows)
    ensures AddDays(today, PlanDuration).None? ==> r == Err(Unhandled("OverflowError"))
    ensures AddDays(today, PlanDuration).Some? && !UploadFits(userId, timestamp, filename, today) ==>
      r == Err(Unhandled("ValidationError"))
    ensures AddDays(today, PlanDuration).Some? && UploadFits(userId, timestamp, filename, today) ==> r.Ok?
    ensures r.Ok? ==>
      var rec := UploadRecord(userId, timestamp, filename, today, minuteStamp);
      && rec.Some?
      && |plans.rows| == |old(plans.rows)| + 1
      && plans.rows[..|old(plans.rows)|] == old(plans.rows)
      && Holds(plans.rows[|old(plans.rows)|], rec.value)
      && r.value == PlanFileUpload(FieldOf(plans.rows[|old(plans.rows)|], "id"), VStr(PlanTitle(filename, today)),
                                   StoredPath(userId, timestamp, filename), "Plan file uploaded successfully")
  {
    var record := PlanCreateFor(userId, timestamp, filename, today, minuteStamp);
    if record.Err? {
      return Err(record.error);
    }
    var plan := InsertPlan(plans, record.value, serverDefaults);
    r := Ok(PlanFileUpload(FieldOf(plan, "id"), FieldOf(plan, "title"), StoredPath(userId, timestamp, filename),
                           "Plan file uploaded successfully"));
  }

  /** `crud.plan.create` on the upload's record: the stored row is appended
      after the existing ones and holds every field of the record. */
  method InsertPlan(plans: Table, record: Record, serverDefaults: Record) returns (plan: Record)
    requires plans.Valid() && "id" !in record
    modifies plans
    ensures plans.Valid()
    ensures |plans.rows| == |old(plans.rows)| + 1
    ensures plans.rows[..|old(plans.rows)|] == old(plans.rows)
    ensures plans.rows[|old(plans.rows)|] == plan
    ensures Holds(plan, record)
  {
    ghost var before := plans.rows;
    plan := plans.Create(record, serverDefaults);
    assert plans.rows[..|before|] == before;
  }

  /** The recorded plan is pending, not shared, assigned to doctor 1 and to
      the uploader, and starts today. */
  lemma UploadDefaults(userId: int, timestamp: string, filename: Option<string>, today: Date, minuteStamp: string, row: Record)
    requires ValidDate(today)
    requires UploadRecord(userId, timestamp, filename, today, minuteStamp).Some?
    requires Holds(row, UploadRecord(userId, timestamp, filename, today, minuteStamp).value)
    ensures row["status"] == VStr("pending") && row["share_with_doctor"] == VBool(false)
    ensures row["doctor_id"] == VInt(1) && row["user_id"] == VInt(userId)
    ensures row["start_date"] == VDate(today)
    ensures row["original_file_path"] == VStr(StoredPath(userId, timestamp, filename))
    ensures row["title"] == VStr(PlanTitle(filename, today))
  {
    var rec := UploadRecord(userId, timestamp, filename, today, minuteStamp).value;
    assert "status" in rec && "share_with_doctor" in rec && "doctor_id" in rec && "user_id" in rec;
    assert "start_date" in rec && "original_file_path" in rec && "title" in rec;
  }

  /** A plan uploaded on a valid day before 9999-12-02 runs exactly thirty days. */
  lemma PlanRunsThirtyDays(today: Date)
    requires ValidDate(today) && AddDays(today, PlanDuration).Some?
    ensures Ordinal(AddDays(today, PlanDuration).value) - Ordinal(today) == 30
  {
    AddDaysOrdinal(today, PlanDuration);
  }

  /** `get_all_plans`: the guard, then the user's plans newest first. */
  function GetAllPlans(users: Table, plans: Table, xTelegramId: string, skip: nat, limit: nat)
    : (r: Result<seq<Record>, HttpError>)
    reads users, plans
    ensures GetCurrentUser(users.rows, xTelegramId).Err? ==> r == Err(GetCurrentUser(users.rows, xTelegramId).error)
    ensures GetCurrentUser(users.rows, xTelegramId).Ok? ==> r.Ok?
    ensures r.Ok? ==>
      var owner := VInt(IdOf(GetCurrentUser(users.rows, xTelegramId).value));
      && GetCurrentUser(users.rows, xTelegramId).Ok?
      && |r.value| <= limit
      && (forall x :: x in r.value ==> x in plans.rows && FieldOf(x, "user_id") == owner)
      && SortedDesc(r.value, "created_at")
      && exists s :: SortedPermutation(s, Where(plans.rows, "user_id", owner), "created_at") && r.value == Slice(s, skip, limit)
  {
    match GetCurrentUser(users.rows, xTelegramId)
    case Err(e) => Err(e)
    case Ok(user) =>
      Ok(GetByUserId(plans.rows, IdOf(user), skip, limit))
  }

  /** `get_one_plan`: 404 unless a plan with that id belongs to the current user. */
  function GetOnePlan(users: Table, plans: Table, xTelegramId: string, planId: int): (r: Result<Record, HttpError>)
    reads users, plans
    requires plans.Valid()
    ensures GetCurrentUser(users.rows, xTelegramId).Err? ==> r == Err(GetCurrentUser(users.rows, xTelegramId).error)
    ensures GetCurrentUser(users.rows, xTelegramId).Ok? ==>
      var owner := VInt(IdOf(GetCurrentUser(users.rows, xTelegramId).value));
      (r == Err(PlanMissing) <==>
         forall i :: 0 <= i < |plans.rows| ==> !(FieldOf(plans.rows[i], "id") == VInt(planId) && FieldOf(plans.rows[i], "user_id") == owner))
    ensures GetCurrentUser(users.rows, xTelegramId).Ok? ==>
      var owner := VInt(IdOf(GetCurrentUser(users.rows, xTelegramId).value));
      (r.Ok? <==>
         exists i :: 0 <= i < |plans.rows| && FieldOf(plans.rows[i], "id") == VInt(planId) && FieldOf(plans.rows[i], "user_id") == owner)
    ensures r.Ok? ==>
      && r.value in plans.rows && FieldOf(r.value, "id") == VInt(planId)
      && FieldOf(r.value, "user_id") == VInt(IdOf(GetCurrentUser(users.rows, xTelegramId).value))
  {
    match GetCurrentUser(users.rows, xTelegramId)
    case Err(e) => Err(e)
    case Ok(user) =>
      match GetUserPlan(plans.rows, IdOf(user), planId)
      case None => Err(PlanMissing)
      case Some(p) => Ok(p)
  }
}
