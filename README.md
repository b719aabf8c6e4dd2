# health_assist core, modelled in Dafny

This project models the server core of the health_assist treatment-plan assistant:

- **PDF pre-processor.** It checks the upload path and the `.pdf` suffix. It classifies the document as text-bearing ("structured") or image-only by the average count of non-whitespace characters per page, with a threshold of 50. It builds page-labelled text and a metadata record, and returns one outcome dictionary.
- **GigaChat client wrapper.** Credential and scope resolution, the `with`-statement session lifecycle, role mapping and message conversion.
- **YAML prompt loader.** Lookup by prompt name, getters with per-key defaults, and `str.format` substitution into the user-prompt template.
- **Yandex ID login.** The pure parts: the redirect URL, age from a birthday, and the merge of profile fields into an existing user or a new user record. The callback's effect on the user table is modelled as well, along with `check_auth`.
- **User schema.** The phone validator and the field bounds of `UserCreate`, `UserUpdate` and `RoleBase`.
- **Plan upload and plan queries.** The stored file name, title, dates and defaults of an uploaded plan, and the per-user listing and single-plan lookup.
- **CRUD layer.** The ORM tables become an in-memory `Table` class holding a sequence of records (`map<string, Value>`) and the next free id. Covers `get`, `get_multi`, `create`, `update`, `delete`, the plan queries and the user lookups.
- **Endpoint guards.** The `X-Telegram-Id` authorization dependency and the decisions of the user endpoints.

Modelling choices:

- PyMuPDF is replaced by a `Document` value. It holds pages (text and an image flag), a metadata map, and an optional fault that stands for an exception raised while reading.
- The file system is a map from path to an openable document or an open failure.
- The GigaChat transport is a function parameter from session and request to reply.
- The prompt directory is a map from path to configuration.
- The clock (`today`, timestamps), the Yandex HTTP responses, and commit or file-write failures are all parameters.
- Python's truthiness, `str.format`, `str.replace`, `str.isdigit`, `strptime("%Y-%m-%d")` and `date + timedelta` are written out in the `Values`, `Text`, `Dates` and `Prompts` modules.
- SQL `scalar_one_or_none` is `CrudBase.ScalarOneOrNone`: no row, one row, or `MultipleResultsFound`.
- A comparison with `None` in a query is `IS NULL`, so `get_by_phone(None)` matches every user whose phone is NULL.

Facts about the code that shape the model:

- The prompt loader does not restrict templates to one replacement field. `Prompts.Format` models `str.format` for plain named fields, including the `{{`/`}}` escapes and the ValueError messages for an unmatched brace.
- No code in the repository parses or cleans the model's reply, so no reply handling is modelled.
- `create_user` with no phone looks up `phone IS NULL`. It is refused with 400 as soon as any stored user has a NULL phone, and it fails with `MultipleResultsFound` once two do (`UsersApi.CreateUser`, `CrudUser.GetByPhone`).
- `Settings` (main-app/app/core/config.py:7-50) declares no `BOT_USERNAME`, yet both success paths of the Yandex callback read it. The callback therefore never renders its page (see "## Findings").

## Model

| member | source | states |
|---|---|---|
| PdfProcessor.ToDictRoundTrip | main-app/app/services/pdf_processor.py:27-33 | the three-key dictionary built by `to_dict` determines the response: reading status, message and data back gives the original response |
| PdfProcessor.ToDict | main-app/app/services/pdf_processor.py:27-33 | the dictionary has exactly the keys status, message and data, holding the status value string, the message and the data |
| PdfProcessor.PdfProcessor.constructor | main-app/app/services/pdf_processor.py:43-51 | a new processor stores the path and has no document handle |
| PdfProcessor.PdfProcessor.OpenPdf | main-app/app/services/pdf_processor.py:53-77 | a missing path, then a suffix other than `.pdf` in any case, then an open failure each give an error response and leave the handle unset; otherwise the handle is the opened document and the response is success |
| PdfProcessor.HasPdfSuffix | main-app/app/services/pdf_processor.py:62 | the suffix test of `Path.suffix.lower()`; PdfSuffixIsEnding proves what it accepts |
| PdfProcessor.PdfSuffixIsEnding | main-app/app/services/pdf_processor.py:62 | accepted exactly when the path ends in ".pdf" in any letter case after a non-empty last component stem |
| PdfProcessor.OpenFailurePassedThrough | main-app/app/services/pdf_processor.py:56-77 | when opening fails, `process` returns that error unchanged; a missing path is reported first with "Файл не найден: " and the path, and a wrong suffix next; every open error has status error and empty data |
| PdfProcessor.PdfProcessor.IsImageBasedPdf | main-app/app/services/pdf_processor.py:79-121 | the loops return the classification function's verdict; the image scan reads at most min(3, pages) pages and stops at the first page with images |
| PdfProcessor.VerdictIsTextThreshold | main-app/app/services/pdf_processor.py:86-121 | with no handle or zero pages the verdict is image-based; otherwise it is image-based exactly when the total count of non-whitespace characters is below 50 × pages |
| PdfProcessor.Classification | main-app/app/services/pdf_processor.py:79-121 | image-based without a handle; an error exactly when a page read faults, carrying that fault (the verdict itself in VerdictIsTextThreshold) |
| PdfProcessor.AverageBelowThreshold | main-app/app/services/pdf_processor.py:102-119 | for pages > 0, an average per page below 50 is the same as total < 50 × pages |
| PdfProcessor.ImageCheckIrrelevant | main-app/app/services/pdf_processor.py:113-121 | the decision is `avg < 50` whether or not images were found: the image branch never changes the verdict |
| PdfProcessor.PageBlocks | main-app/app/services/pdf_processor.py:134-138 | one block per page, in page order; block k is "--- Страница k ---\n" followed by page k's text, counting from 1 |
| PdfProcessor.PdfProcessor.ExtractText | main-app/app/services/pdf_processor.py:123-139 | the loop produces the blocks joined by a blank line, "" without a handle, and an error when reading a page faults |
| PdfProcessor.ExtractedTextNotBlank | main-app/app/services/pdf_processor.py:130-139 | for a document with at least one page the extracted text starts with the first page marker and is never whitespace-only |
| PdfProcessor.MetadataRecord | main-app/app/services/pdf_processor.py:141-161 | empty without a handle; otherwise exactly the eight keys, each metadata value or "", with pages_count equal to the page count |
| PdfProcessor.PdfProcessor.GetMetadata | main-app/app/services/pdf_processor.py:141-161 | the method's record equals the metadata record above |
| PdfProcessor.NoBlankAfterStructured | main-app/app/services/pdf_processor.py:177-209 | after a structured verdict the outcome is success with the processed message, so the "no extractable text" branch cannot be reached |
| PdfProcessor.ImageBasedOutcome | main-app/app/services/pdf_processor.py:177-187 | an opened document judged image-based (no pages, or fewer than 50 characters per page on average) yields status error with pdf_type "image_based", requires_ocr true and the document's metadata |
| PdfProcessor.StructuredTextOutcome | main-app/app/services/pdf_processor.py:189-209 | any other opened document yields status success with pdf_type "structured", the page blocks joined by blank lines as text, its length and the metadata |
| PdfProcessor.PdfProcessor.Analyse | main-app/app/services/pdf_processor.py:175-209 | the response for an opened document is the one its classification and text extraction determine, including the failure response when either raises |
| CrudBase.UpdateAt | main-app/app/crud/base.py:57-76 | updating the row found by id rewrites exactly that row with the new fields, keeps its id, and keeps every id issued and unique |
| PdfProcessor.PdfProcessor.Close | main-app/app/services/pdf_processor.py:217-220 | closing marks the handle closed whenever one was opened, including one with zero pages (corrected behaviour) |
| PdfProcessor.PdfProcessor.Process | main-app/app/services/pdf_processor.py:163-220 | returns the pipeline's outcome; after a successful open the handle is the opened document and is closed on every path; after a failed open nothing changes |
| PdfProcessor.ZeroPageDocumentLeftOpen | main-app/app/services/pdf_processor.py:217-220 | as written, `if self.doc` is false for an opened document with zero pages, so the `finally` block does not close it |
| PdfProcessor.PdfProcessor.CloseAsWritten | main-app/app/services/pdf_processor.py:217-220 | the `finally` clause as written marks the handle closed only when the document has pages |
| PdfProcessor.PdfProcessor.ProcessAsWritten | main-app/app/services/pdf_processor.py:163-220 | as written, `process` returns the same outcome, but after a successful open the handle ends closed exactly when the document has at least one page |
| PdfProcessor.ProcessTreatmentPlanPdf | main-app/app/services/pdf_processor.py:223-251 | the module-level entry point returns the same outcome as a processor on that path |
| GigaChat.Configure | main-app/app/services/gigachat_service.py:32-38 | construction fails exactly when both the argument and GC_AUTH_KEY are missing or empty; otherwise the credentials are the truthy argument, else the variable |
| GigaChat.ScopeResolution | main-app/app/services/gigachat_service.py:33 | the scope is the truthy argument, else GC_SCOPE, else "GIGACHAT_API_CORP" |
| GigaChat.NewService | main-app/app/services/gigachat_service.py:18-38 | a service is built exactly when the configuration succeeds, with those credentials and that scope and with no client |
| GigaChat.GigaChatService.constructor | main-app/app/services/gigachat_service.py:18-38 | stores credentials, scope and the SSL flag, with the client unset |
| GigaChat.GigaChatService.Enter | main-app/app/services/gigachat_service.py:40-48 | entering sets the client to a session built from the stored credentials, scope and SSL flag |
| GigaChat.GigaChatService.Exit | main-app/app/services/gigachat_service.py:50-54 | exiting clears the client and releases it only if one was set, so a second exit does nothing |
| GigaChat.RoleMapping | main-app/app/services/gigachat_service.py:94-99 | "user", "system" and "assistant" map to their roles, every other string maps to the user role, and a non-user role maps back to its name |
| GigaChat.ToApiMessages | main-app/app/services/gigachat_service.py:92-100 | the conversion keeps count, order and content, and maps each role |
| GigaChat.GigaChatService.Chat | main-app/app/services/gigachat_service.py:56-118 | without a client the outcome is the not-initialised error; otherwise the loop-built message list and parameters go to the transport, and the first choice or the transport's error comes back |
| GigaChat.Answer | main-app/app/services/gigachat_service.py:111-118 | a transport error is passed on, not swallowed; a completion yields its first choice |
| GigaChat.SimpleMessages | main-app/app/services/gigachat_service.py:135-139 | [system, user] when the system prompt is truthy, [user] when it is absent or empty |
| GigaChat.SimpleMessagesRoles | main-app/app/services/gigachat_service.py:135-140 | converted, these lists carry the system and user roles in that order |
| GigaChat.GigaChatService.SimpleChat | main-app/app/services/gigachat_service.py:120-140 | behaves as `chat` on the list built from the prompt and system prompt, with the default parameters |
| GigaChat.ChatInSession | main-app/app/services/gigachat_service.py:40-88 | a chat before entering fails as not initialised, a chat inside the session reaches the transport, and a chat after exit fails again with the client cleared |
| Prompts.LoadPrompt | main-app/app/prompts/__init__.py:23-41 | fails with FileNotFound exactly when `<dir>/<name>.yaml` is absent; otherwise returns the stored configuration |
| Prompts.Format | main-app/app/prompts/__init__.py:57 | an error needs a brace in the template and is a KeyError, IndexError or ValueError; a KeyError names a field missing from the arguments, and an IndexError an empty or all-digit field name |
| Prompts.FormatUserPrompt | main-app/app/prompts/__init__.py:43-57 | FileNotFound exactly when the prompt file is absent; AttributeError exactly when the stored template is not a string; a KeyError names a field missing from the arguments |
| Prompts.GetSystemPrompt | main-app/app/prompts/__init__.py:59-70 | fails exactly when the prompt file is absent, with FileNotFound of its path (value or default in GetterDefaults) |
| Prompts.GetResponseSchema | main-app/app/prompts/__init__.py:72-83 | fails exactly when the prompt file is absent, with FileNotFound of its path (value or default in GetterDefaults) |
| Prompts.GetLlmParameters | main-app/app/prompts/__init__.py:85-96 | fails exactly when the prompt file is absent, with FileNotFound of its path (value or default in GetterDefaults) |
| Prompts.GetExamples | main-app/app/prompts/__init__.py:98-109 | fails exactly when the prompt file is absent, with FileNotFound of its path (value or default in GetterDefaults) |
| Prompts.FormatLiteral | main-app/app/prompts/__init__.py:57 | a template without braces formats to itself |
| Prompts.FormatLiteralPrefix | main-app/app/prompts/__init__.py:57 | a brace-free prefix is copied unchanged in front of the rest of the result, including its errors |
| Prompts.FormatSingleSlot | main-app/app/prompts/__init__.py:57 | a template with one named field, given a value for it, formats to the template with the field replaced |
| Prompts.FieldNameErrors | main-app/app/prompts/__init__.py:57 | a field name runs to the first brace: a `{` there raises "unexpected '{' in field name", and a field with no closing brace raises "expected '}' before end of string" |
| Prompts.GetterDefaults | main-app/app/prompts/__init__.py:59-109 | each getter returns the stored value or its default: "", {}, {} and [] for system_prompt, response_schema, llm_parameters and examples |
| Prompts.MissingTemplateFormatsEmpty | main-app/app/prompts/__init__.py:54-57 | without a user_prompt_template key the formatted user prompt is "" |
| Prompts.UnknownPromptFails | main-app/app/prompts/__init__.py:33-36 | an unknown prompt name makes formatting and every getter fail with the same FileNotFound before any substitution |
| Prompts.LoadTreatmentPlanPrompt | main-app/app/prompts/__init__.py:116-133 | succeeds exactly when the system prompt, the formatted user prompt and the LLM parameters are all read, and then returns those three in that order; fails with FileNotFound when its file is absent, and with the formatting error itself when only formatting fails |
| Prompts.TreatmentPlanPromptRendersText | main-app/app/prompts/__init__.py:126-133 | when the template's only field is `{treatment_plan_text}`, the user prompt is the template with the text in its place |
| Auth.LoginUrl | main-app/app/api/v1/auth.py:21-43 | fails with 500 exactly when the client id is empty; otherwise the URL starts with the authorize endpoint |
| Auth.LoginUrlQuery | main-app/app/api/v1/auth.py:32-41 | splitting the query on `&` gives response_type, client_id, redirect_uri and state as `k=v` pairs, in that order and not encoded |
| Auth.AgeCompletedYears | main-app/app/api/v1/auth.py:107 | the age is the number of completed years: the birthday in year birth + age is not after today, and the birthday in year birth + age + 1 is |
| Auth.Age | main-app/app/api/v1/auth.py:107 | the age is the year difference, less one exactly when today's (month, day) comes before the birthday's |
| Auth.CallbackAge | main-app/app/api/v1/auth.py:100-109 | no birthday gives no age; TypeError exactly for a truthy non-string birthday; an age is computed only from a birthday that parses as `%Y-%m-%d` |
| Auth.AgeFromBirthday | main-app/app/api/v1/auth.py:100-108 | a falsy birthday gives no age; an unparseable string gives no age; a truthy non-string raises; a parsed date gives the age |
| Auth.BirthdayRoundTrip | main-app/app/api/v1/auth.py:102-107 | the ISO text of a valid date parses back, and the age is computed from that date |
| Auth.FullName | main-app/app/api/v1/auth.py:95 | real_name when truthy, else display_name |
| Auth.ExistingUserChanges | main-app/app/api/v1/auth.py:121-129 | yandex_id and email are always written, even when None; full_name and sex only when truthy; age whenever it is not None |
| Auth.AssignProfile | main-app/app/api/v1/auth.py:121-129 | the sequence of assignments yields the user merged with exactly those changes |
| Auth.ZeroAgeApplied | main-app/app/api/v1/auth.py:124-129 | an age of 0 is applied, while an empty name and a missing sex leave the stored values |
| Auth.NewUserRecord | main-app/app/api/v1/auth.py:155-164 | a new user has external_id = state, the profile fields, full_name "Unknown" when no name is truthy, role_id 1 and phone None |
| Auth.YandexCallback | main-app/app/api/v1/auth.py:47-182 | given the outcome of reading `settings.BOT_USERNAME`: a non-200 token or user-info response gives 400; a truthy non-string birthday raises; two users with that id raise MultipleResultsFound; a failed commit gives the commit's error for an existing user and 500 "Database error: …" for a new one; all of these leave the table unchanged. Otherwise an existing user is updated in place with the merge, or the new user is appended, and the page carries the user's name, or the settings read fails after the change |
| Auth.YandexCallbackAsWritten | main-app/app/api/v1/auth.py:131-142 | with the settings as declared, the callback never succeeds; once Yandex answered, the age was read, the lookup was unambiguous and the commit succeeded, it raises AttributeError after updating or appending the user |
| Auth.YandexCallbackCorrected | main-app/app/api/v1/auth.py:47-182 | with `BOT_USERNAME` declared, the same inputs give the page with that bot name, and every error leaves the table unchanged |
| Auth.BotUsernameUndeclared | main-app/app/core/config.py:7-50 | `BOT_USERNAME` is not among the attributes `Settings` declares |
| Auth.CheckAuth | main-app/app/api/v1/auth.py:186-197 | 404 exactly when no user has that telegram id; with unique telegram ids, a success exactly when one does; a success is authorized and carries that user's name and yandex_id |
| Auth.CheckAuthIgnoresYandexId | main-app/app/api/v1/auth.py:194-195 | a user without yandex_id is reported authorized by check_auth while the request guard refuses them with 401 |
| UserSchema.ValidatePhone | main-app/app/schemas/user.py:42-49 | an accepted phone is returned unchanged; a refused one carries the validator's message |
| UserSchema.PhoneAccepted | main-app/app/schemas/user.py:47-48 | a phone is accepted exactly when every character is '+', '-', ' ' or a digit and at least one digit is present |
| UserSchema.CreateErrors | main-app/app/schemas/user.py:29-49 | a create body is valid exactly when external_id ≤ 100, sex is absent or one of the three values, age is absent or in 0..150, full_name ≤ 255, and the phone is absent or ≤ 20 and accepted |
| UserSchema.UpdateErrors | main-app/app/schemas/user.py:52-58 | an update body is valid exactly when sex, age, full_name ≤ 255 and phone ≤ 20 hold for the fields present |
| UserSchema.UpdateSkipsPhoneFormat | main-app/app/schemas/user.py:52-58 | "abc" is refused as a phone on create but accepted on update |
| UserSchema.RoleErrors | main-app/app/schemas/user.py:13 | a role type is valid exactly when it is at most 32 characters |
| UserSchema.CreateDump | main-app/app/crud/base.py:50-51 | the dumped create body has every schema field, with external_id and phone as given |
| UserSchema.UpdateInputOf | main-app/app/crud/base.py:65-68 | an update body becomes a schema input whose set fields are the ones the client sent, never including id |
| PlansApi.StoredFileName | main-app/app/api/v1/plans.py:49 | the stored name begins with "plan_" |
| PlansApi.StoredPath | main-app/app/api/v1/plans.py:49-50 | the stored path is "uploads/plans/" followed by the stored name |
| PlansApi.TitleDropsSuffix | main-app/app/api/v1/plans.py:67 | removing every ".pdf" from a name plus ".pdf" gives the name back when the name holds no ".pdf" |
| PlansApi.TitleExamples | main-app/app/api/v1/plans.py:67 | "report.pdf" gives the title "report", while "SCAN.PDF" is left unchanged because the match is case-sensitive |
| PlansApi.PlanTitle | main-app/app/api/v1/plans.py:67 | a non-empty file name gives a title no longer than the name; otherwise the dated default title, 26 characters long |
| PlansApi.PlanRecord | main-app/app/api/v1/plans.py:69-79 | the new plan has status "pending", share_with_doctor false, doctor_id 1, the current user, start_date today, the end date and the stored path |
| PlansApi.UploadRecord | main-app/app/api/v1/plans.py:64-79 | a plan record exists exactly when today + 30 days is a valid date, and then it holds the derived title, description, dates and path |
| PlansApi.UploadDefaults | main-app/app/api/v1/plans.py:69-79 | the stored row carries the defaults, the current user's id, today's start date, the stored path and the derived title |
| PlansApi.PlanRunsThirtyDays | main-app/app/api/v1/plans.py:73 | the end date is 30 days after the start date |
| PlansApi.LoadPlanFile | main-app/app/api/v1/plans.py:24-89 | the guard's error comes first, then 400 for a content type other than application/pdf, then 500 for a failed write, then OverflowError when today + 30 days passes year 9999, then a validation error for a title over 255 or a path over 500 characters, with no plan stored on any of these; otherwise the upload succeeds, exactly one plan row holding the derived record is appended, and the response gives its id, title, path and message |
| PlansApi.RecordUpload | main-app/app/api/v1/plans.py:64-89 | OverflowError exactly when the end date overflows, a validation error exactly when it does not and the title or path is too long, success otherwise; a success appends exactly one row holding the derived plan and returns its id, title, path and the message "Plan file uploaded successfully"; a failure changes nothing |
| PlansApi.InsertPlan | main-app/app/api/v1/plans.py:81 | appends exactly one row after the existing ones, holding every field of the record |
| PlansApi.PlanCreateFor | main-app/app/api/v1/plans.py:69-79 | building the `PlanCreate` raises OverflowError first when the end date overflows, then a validation error when the title exceeds 255 or the path 500 characters, and otherwise gives the derived record |
| PlansApi.GetAllPlans | main-app/app/api/v1/plans.py:93-114 | the guard's error; otherwise success, with the OFFSET `skip` LIMIT `limit` window of some ordering of the current user's plans sorted by created_at descending, so at most `limit` plans, all the user's, in that order |
| PlansApi.GetOnePlan | main-app/app/api/v1/plans.py:118-144 | the guard's error; otherwise success exactly when a plan with that id belongs to the current user, and then that plan; 404 exactly when none does |
| CrudBase.ScalarOneOrNone | main-app/app/crud/base.py:39 | no row gives None, one row gives that row, more than one raises MultipleResultsFound |
| CrudBase.Where | main-app/app/crud/plan.py:21-23 | the filter keeps exactly the rows whose field equals the value |
| CrudBase.Except | main-app/app/crud/base.py:81-82 | keeps exactly the rows whose field differs from the value |
| CrudBase.WherePartition | main-app/app/crud/base.py:81-82 | filtering and its complement split the table: lengths add up and the multisets sum to the table |
| CrudBase.WhereNone | main-app/app/crud/base.py:80-84 | when no row matches, the filter is empty and the complement is the whole table |
| CrudBase.UniqueSelectsAtMostOne | main-app/app/crud/base.py:38-39 | on a unique column a non-NULL value selects at most one row, so the lookup never raises |
| CrudBase.SelectById | main-app/app/crud/base.py:36-39 | returns a row exactly when one has that id, and then it is that row |
| CrudBase.AppendKeepsUnique | main-app/app/api/v1/users.py:71-86 | appending a row with a NULL or new value keeps the column unique |
| CrudBase.Slice | main-app/app/crud/base.py:45 | OFFSET then LIMIT: min(limit, rows − skip) rows starting at position skip |
| CrudBase.UpdateData | main-app/app/crud/base.py:65-68 | a dict input is applied whole; a schema input contributes only its explicitly set fields |
| CrudBase.UpdateIdempotent | main-app/app/crud/base.py:70-71 | applying the same update twice equals applying it once |
| CrudBase.UpdateChangesOnlyNamedFields | main-app/app/crud/base.py:70-71 | fields not named in the update and rows with another id are unchanged |
| CrudBase.SetFields | main-app/app/crud/base.py:70-71 | the setattr loop yields the record overridden by every key of the data |
| CrudBase.ApplyUpdateKeepsIds | main-app/app/crud/base.py:70-71 | an update that does not name id keeps every row's id |
| CrudBase.ExceptKeepsUnique | main-app/app/crud/base.py:80-83 | removing rows keeps ids unique |
| CrudBase.Table.constructor | main-app/app/crud/base.py:27-34 | a new table is empty, with next id 1 |
| CrudBase.Table.Get | main-app/app/crud/base.py:36-39 | returns the row with that id exactly when one exists |
| CrudBase.Table.GetMulti | main-app/app/crud/base.py:41-46 | at most `limit` rows, the ones after the first `skip`, in table order |
| CrudBase.Table.Create | main-app/app/crud/base.py:48-55 | appends exactly one row holding every input field, server defaults for the other columns and a fresh id, and returns it |
| CrudBase.Table.Update | main-app/app/crud/base.py:57-76 | the table becomes the update applied to that id; the returned row is the old row merged with the update data |
| CrudBase.Table.Delete | main-app/app/crud/base.py:78-84 | returns what `get` returned; an existing row is removed and nothing else changes; an absent id changes nothing |
| CrudPlan.SortDesc | main-app/app/crud/plan.py:24 | the result is sorted descending on the key and is a permutation of the input |
| CrudPlan.InsertSorted | main-app/app/crud/plan.py:24 | inserting into a descending list keeps it descending |
| CrudPlan.GetByUserId | main-app/app/crud/plan.py:17-28 | the result is the OFFSET `skip` LIMIT `limit` window of a permutation of the user's plans sorted by created_at descending (sorting before slicing), so at most `limit` of the user's plans in that order |
| CrudPlan.GetByUserIdComplete | main-app/app/crud/plan.py:21-26 | with no offset and a large enough limit the result holds exactly the user's plans |
| CrudPlan.GetUserPlan | main-app/app/crud/plan.py:30-37 | returns a plan exactly when one has both that id and that user_id |
| CrudPlan.OtherUsersPlanHidden | main-app/app/crud/plan.py:34-37 | the id of another user's plan yields None |
| CrudPlan.GetActivePlans | main-app/app/crud/plan.py:39-48 | exactly the user's plans with status "active", each as often as it is stored (the same multiset), sorted by start_date descending, with no limit |
| CrudUser.SelectOne | api/app/crud/user.py:21-24 | no row exactly when no record has that value; MultipleResultsFound exactly when two records have it; a single match gives that record |
| CrudUser.GetByExternalId | api/app/crud/user.py:17-24 | no row exactly when no user has that external_id; MultipleResultsFound exactly when two users have it; a single match gives that user |
| CrudUser.GetByPhone | api/app/crud/user.py:26-33 | no row exactly when no user has that phone, where no phone means NULL; MultipleResultsFound exactly when two users have it, NULL included; a single match gives that user |
| CrudUser.NullPhonesCollide | api/app/crud/user.py:26-33 | two users without a phone make `get_by_phone(None)` raise MultipleResultsFound, since UNIQUE does not cover NULL |
| CrudUser.LookupsAtMostOne | api/app/crud/user.py:24-33 | on unique columns both lookups return at most one user |
| Deps.GetCurrentUser | main-app/app/api/deps.py:29-75 | 401 "User not found" exactly when no user has the header's id; a success is a matching user with a truthy yandex_id |
| Deps.GuardDecision | main-app/app/api/deps.py:58-75 | with unique external ids the guard succeeds exactly when the matched user has a truthy yandex_id, and refuses as not authorized exactly when one is found without it |
| UsersApi.GetUsers | main-app/app/api/v1/users.py:17-32 | the guard's error; otherwise success with exactly min(limit, rows − skip) users, the ones from position `skip` onward |
| UsersApi.GetUser | main-app/app/api/v1/users.py:36-54 | the guard's error; otherwise success exactly when a user has that id, and then that user; 404 exactly when none does |
| UsersApi.CreateUser | main-app/app/api/v1/users.py:58-87 | the guard's error, then 422 for an invalid body, then 400 for a taken external_id, then 400 for a taken phone, then MultipleResultsFound when either lookup finds two users (for a missing phone, two users without one), with no change on any error; a success appends the new user and keeps external_id and phone unique |
| UsersApi.InsertCheckedUser | main-app/app/api/v1/users.py:86 | appends exactly one row holding every dumped field, and keeps external_id and phone unique |
| UsersApi.UpdateUser | main-app/app/api/v1/users.py:91-113 | the guard's error, then 422 for an invalid body; otherwise success exactly when a user has that id, with the update applied to that user only, and 404 with no change exactly when none does |
| UsersApi.DeleteUser | main-app/app/api/v1/users.py:117-135 | the guard's error; otherwise success exactly when a user has that id, and then the user is removed and no row keeps that id; 404 with no change exactly when none does |
| Dates.AddDaysOrdinal | main-app/app/api/v1/plans.py:73 | when `date + timedelta(days=n)` stays within year 9999, the result's day number is the start's plus n |
| Dates.ParseFormatRoundTrip | main-app/app/api/v1/auth.py:105 | `%Y-%m-%d` parsing of a valid date's ISO text gives that date back |
| Dates.ParseIsoDate | main-app/app/api/v1/auth.py:105 | a parsed date is always a valid calendar date (round trip in ParseFormatRoundTrip) |
| Dates.AddDays | main-app/app/api/v1/plans.py:73 | a result is always a valid date (its day number in AddDaysOrdinal) |
| Text.SplitJoin | main-app/app/api/v1/auth.py:32-41 | splitting a separator-joined list of parts that do not contain the separator gives the parts back |
| Text.RemoveAllAbsent | main-app/app/api/v1/plans.py:67 | `replace(pat, "")` leaves a string without the pattern unchanged |

## Left out

- PyMuPDF internals (`fitz.open`, `get_text`, `get_images`, `metadata`): a document is a value of pages, image flags and metadata, and any exception while reading is a fault value that yields the generic error outcome.
- PdfProcessor.AverageTextPerPage: the average is a real-number division; Python's floating-point rounding is not modelled.
- `MIN_TEXT_RATIO` (pdf_processor.py:41) is declared but never used, so it has no counterpart here.
- Path normalisation of `pathlib.Path` (trailing `/`, `.` and `//` segments) is not modelled; the suffix is taken after the last `/` and the last `.` of the final component.
- Logging in every module is left out.
- The GigaChat network transport, `temperature` and `top_p` are opaque: the transport is a function parameter and the floats are passed through as reals.
- GigaChat.ToApiMessages: a message without a `role` or `content` key (KeyError in Python) cannot occur, because a message is a record with both fields.
- `get_gigachat_service` is the factory `GigaChat.NewService` over an explicit environment map.
- YAML parsing is left out: a prompt file is its parsed configuration map, and an empty or non-mapping YAML file is not modelled.
- The default prompts directory (the package directory) is left out: the loader always receives a directory.
- Prompts.Format: format specs (`{x:>5}`), conversions (`{x!r}`) and attribute or index fields (`{a.b}`, `{a[0]}`) are not modelled; a field name is a plain name, and values are strings.
- "Every getter reloads the configuration" holds by construction: getters are functions of the storage map, so equal storage gives equal results.
- Unicode digits: Python's `isdigit` and `strptime` accept non-ASCII digits; the model accepts ASCII digits only.
- UserSchema.ValidatePhone: an explicit `phone=None` reaching the validator (AttributeError in Python) is not modelled, because the model only runs the validator on a present phone.
- The Jinja success page is reduced to the user name and bot name it is given; the HTML is left out. The read of `settings.BOT_USERNAME` that builds it is modelled (see "## Findings").
- The Yandex token JSON (`access_token`) and the HTTP exchange are reduced to status codes and a user-info map.
- Database session mechanics (`flush`, `refresh`, `rollback`, async sessions) are reduced to their effect on the in-memory table. A failed commit is a parameter: it is modelled for the callback's new user and its existing-user path, and left out elsewhere.
- NOT NULL, CHECK and foreign-key constraints of the ORM models are not enforced by the table, except id uniqueness and the explicit length checks on plan title and path.
- `skip` and `limit` are natural numbers: negative values, which SQL would reject, are not modelled.
- CrudBase.Table.GetMulti: `get_multi` has no ORDER BY, so SQL leaves the row order unspecified; the model fixes it to insertion order.
- CrudPlan.SortDesc: SQL leaves the order of equal keys unspecified, and NULL or mixed-type keys sort as 0; only sortedness and permutation are stated.
- created_at is an integer instant, supplied as a server default, rather than a timestamp.
- CrudBase.SetFields: `setattr` of a name that is not a column is not rejected; the record simply gains the key.
- Dictionary iteration order is not modelled: records are maps.
- The uploaded file's contents and the file left on disk when a later step fails are not modelled: the write is a single success-or-error parameter.
- The `UserRead`, `PlanRead` and `PlanFileUpload` response schemas are reduced to the records and fields the endpoints return.

## Findings

| source | as written | input that shows it | evidently intended | confidence | as-written member | corrected member |
|---|---|---|---|---|---|---|
| main-app/app/services/pdf_processor.py:217-220 | the `finally` block closes the document only `if self.doc`, and a PyMuPDF document is falsy when it has zero pages | a `.pdf` file that opens as a document with zero pages | the handle is closed on every path after a successful open | not executed; medium (depends on PyMuPDF opening a zero-page file) | PdfProcessor.PdfProcessor.ProcessAsWritten | PdfProcessor.PdfProcessor.Process |
| main-app/app/api/v1/auth.py:140 | both success paths put `settings.BOT_USERNAME` in the template context, but `Settings` declares no such attribute and ignores extra environment variables, so the read raises AttributeError after the commit | any callback for a new Telegram id with both Yandex answers 200 and no birthday | the success page is rendered with the bot's user name | not executed; high (the attribute is absent from the class) | Auth.YandexCallbackAsWritten | Auth.YandexCallbackCorrected |
