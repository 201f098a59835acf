# PFE — a verified model of the authentication pages and the financial-data rules

PFE is a small finance dashboard: a React front end with register, login and profile
pages that keep the session in `localStorage`, and a FastAPI back end with a password-reset
router and a router that accepts monthly or quarterly Excel uploads of financial figures.
This project models, in Dafny, the logic of those five pieces and proves what each one
promises.

- `wrappers.dfy` — `Option` and `Result`, and the `x || ''` fallback on optional strings.
- `browser.dfy` — `localStorage` as a class over a string map, and the two routes the
  pages navigate to.
- `api.dfy` — the shape of a failed API call (`err.response?.data?.detail`, the status) and
  the "detail verbatim, else a fallback" rule every page uses.
- `storeduser.dfy` — the user object the pages keep under `'user'`: `JSON.stringify` as the
  pages produce it and `JSON.parse` as the profile guard consumes it, with the round trip
  proved; and what `JSON.stringify(undefined)` stores.
- `register.dfy` — the registration page: `validateForm` (the email pattern proved equal to
  a computed test), `handleChange`, and `handleSubmit` with its error mapping.
- `login.dfy` — the login page: the empty check, the session write and the error mapping.
- `profile.dfy` — the profile page: the mount-time session guard, editing, saving,
  cancelling and logging out.
- `passwordreset.dfy` — the in-memory reset-token table with issue and single-use,
  expiry-checked redeem.
- `financialdata.dfy` — the Excel template check (with its in-place column conversion), the
  period checks and date arithmetic, the Manager-only gates, the upload, the filtered read
  and the soft delete.

Each asynchronous page handler is split at its `await`: `HandleSubmit` runs the
synchronous checks, sets `loading` and returns the request; `Resolve` takes the settled
reply as an input and ends, as the `finally` block does, with `loading` false.

Where the code and the project's own description differ, the model follows the code:

- When the stored user does not parse, the profile page removes only `'user'`;
  `'token'` stays.
- The profile form has no email-format check.
- There is no forgot/reset view flow in the front end.

The back end's login reply has no `user` field, so the login page stores the text
`"undefined"` under `'user'`, and the profile guard then sends the visitor back to `/login`
(`Profile.GuardAfterLogin`).

## Model

| member | source | states |
|---|---|---|
| Api.ReportedDetail | frontend/src/pages/Register.jsx:76-77 | the detail is reported exactly when the response carries a non-empty `detail`, and it is that text |
| Api.DetailOr | frontend/src/pages/Login.jsx:45-49 | the server's detail verbatim when reported, else the page's fallback; never empty when the fallback is not |
| Wrappers.OrEmpty | frontend/src/pages/Profile.jsx:28-29 | an absent value reads as "", a present one as itself |
| StoredUser.ReadEscaped | frontend/src/pages/Profile.jsx:25 | reading a string literal written by the escaper gives back the original text and the rest of the input |
| StoredUser.ReadRendered | frontend/src/pages/Profile.jsx:25 | reading the rendered members of an object gives back every key/value pair, in order |
| StoredUser.LookupFields | frontend/src/pages/Profile.jsx:28-29 | each of `full_name`, `email`, `role` looked up in the rendered object is the user's own value |
| StoredUser.ParseSerialize | frontend/src/pages/Login.jsx:40 | parsing what `JSON.stringify` wrote for a user gives back that user |
| StoredUser.StoredText | frontend/src/pages/Login.jsx:40 | a missing user is stored as "undefined", a present one as text that parses back to it |
| Register.Update | frontend/src/pages/Register.jsx:20-24 | the named field takes the new value and every other field keeps its old one |
| Register.EmailTestIsRegex | frontend/src/pages/Register.jsx:34-35 | the computed email test accepts exactly the strings matching `^[^\s@]+@[^\s@]+\.[^\s@]+$` |
| Register.EmailShape | frontend/src/pages/Register.jsx:34-35 | a matching email has no whitespace, exactly one '@' and not first, and a '.' inside the domain that is neither its first nor its last character |
| Register.Utf16Length | frontend/src/pages/Register.jsx:40 | the length JavaScript reports lies between the number of characters and twice that |
| Register.Validate | frontend/src/pages/Register.jsx:28-51 | each error is returned exactly when the earlier checks pass and its own fails, in the order fields, email, length of 8, match; no error exactly when all four pass |
| Register.ValidateIgnoresRole | frontend/src/pages/Register.jsx:28-51 | the selected role never changes the verdict |
| Register.FailureMessage | frontend/src/pages/Register.jsx:76-82 | detail verbatim, else "Email already registered" for a 400, else the generic text; never empty |
| Register.Component.constructor | frontend/src/pages/Register.jsx:8-17 | empty fields with role "MEMBER", not loading, no error, no success |
| Register.Component.HandleChange | frontend/src/pages/Register.jsx:20-26 | one field replaced, the others kept, the error cleared, `loading` and `success` untouched |
| Register.Component.HandleSubmit | frontend/src/pages/Register.jsx:53-67 | an invalid form sets that error's message and sends nothing with `loading` unchanged; a valid one sets `loading` (the button is then disabled), clears the error and sends the four fields |
| Register.Component.Resolve | frontend/src/pages/Register.jsx:69-85 | success raises `success`, which keeps the button disabled; failure shows the mapped message, and the button is disabled afterwards only if `success` was already set; `loading` false either way |
| Login.Update | frontend/src/pages/Login.jsx:16-20 | the named field takes the new value, the other keeps its old one |
| Login.Component.constructor | frontend/src/pages/Login.jsx:8-13 | empty form, not loading, no error |
| Login.Component.HandleChange | frontend/src/pages/Login.jsx:16-22 | one field replaced, the other kept, the error cleared |
| Login.Component.HandleSubmit | frontend/src/pages/Login.jsx:24-33 | an empty field sets "Please fill in all fields" and sends nothing; otherwise the form is sent as it is, with no format or length check, `loading` set (the button is then disabled) and the error cleared |
| Login.Component.Resolve | frontend/src/pages/Login.jsx:35-52 | success writes `'token'` and then `'user'` (its serialisation) and navigates to /profile; failure leaves storage alone and shows the detail or the fallback; `loading` false and the button enabled either way |
| Profile.Update | frontend/src/pages/Profile.jsx:41-45 | the named field takes the new value, the other keeps its old one |
| Profile.FormFrom | frontend/src/pages/Profile.jsx:27-30 | each form field is the user's value, or "" when it is absent |
| Profile.GuardAfterLogin | frontend/src/pages/Profile.jsx:19-34 | after a login whose reply had a user the guard admits exactly that user; after one without a user it redirects and removes nothing |
| Profile.GuardAfterSave | frontend/src/pages/Profile.jsx:19-30 | after a successful save the guard admits the saved user |
| Profile.GuardAfterRemoval | frontend/src/pages/Profile.jsx:31-39 | with `'user'` removed (by logout or after a parse failure) the guard redirects |
| Profile.Component.constructor | frontend/src/pages/Profile.jsx:8-16 | no user, not editing, empty form, not loading, no messages |
| Profile.Component.LoadSession | frontend/src/pages/Profile.jsx:19-40 | an entry that parses becomes `user` and pre-fills the form; absent, "" or "undefined" redirects; an unparseable entry is removed, and only it, before redirecting |
| Profile.Component.HandleChange | frontend/src/pages/Profile.jsx:41-47 | one field replaced, the other kept, the error cleared |
| Profile.Component.StartEditing | frontend/src/pages/Profile.jsx:178 | edit mode on, nothing else changes |
| Profile.Component.HandleSubmit | frontend/src/pages/Profile.jsx:49-65 | an empty name or email sets "Please fill in all fields" and sends nothing; otherwise `loading` is set, both messages cleared and the two fields sent |
| Profile.Component.Resolve | frontend/src/pages/Profile.jsx:66-85 | success overwrites only `'user'`, adopts the returned user, leaves edit mode and sets the success message; failure keeps storage, `user` and edit mode and shows the detail or the fallback; `loading` false either way |
| Profile.Component.SuccessTimerElapsed | frontend/src/pages/Profile.jsx:74 | the success message is cleared and nothing else changes |
| Profile.Component.HandleCancel | frontend/src/pages/Profile.jsx:87-94 | the form is restored from `user`, edit mode is left, the error cleared and the success message kept |
| Profile.Component.HandleLogout | frontend/src/pages/Profile.jsx:96-102 | when confirmed both `'token'` and `'user'` are removed and the page goes to /login; declining changes nothing |
| PasswordReset.Service.constructor | backend/app/routers/password_reset.py:20 | the token table starts empty |
| PasswordReset.Service.RequestReset | backend/app/routers/password_reset.py:53-73 | an unknown email gets the neutral message and the table is unchanged; a known one adds exactly token ↦ (that email, now + 15 minutes), and a failed send is a 500 that keeps the token |
| PasswordReset.Service.ResetPassword | backend/app/routers/password_reset.py:75-91 | a missing or expired token (now strictly after expiry) is a 400 and is dropped; a live token whose user is gone is a 404 and stays; otherwise only that user's hash changes and only that token is removed |
| PasswordReset.ResetIsSingleUse | backend/app/routers/password_reset.py:87-90 | after a successful reset the same token is refused with 400 at any later time |
| PasswordReset.IssueThenRedeem | backend/app/routers/password_reset.py:61-90 | a token issued for a user and redeemed within 15 minutes (the expiry instant included) resets that user's password and is consumed |
| FinancialData.Normalise | backend/app/routers/financial_data.py:66-69 | a converted column keeps its length and holds no text; a number keeps its value, numeric text becomes the number it spells, and every other cell becomes missing |
| FinancialData.NormaliseIdempotent | backend/app/routers/financial_data.py:66-69 | converting an already converted column changes nothing |
| FinancialData.AbsentMembers | backend/app/routers/financial_data.py:56 | a column is reported missing exactly when it is required and not in the sheet |
| FinancialData.AbsentEmptyIff | backend/app/routers/financial_data.py:56-58 | nothing is reported missing exactly when every required column is present |
| FinancialData.NormaliseColumnsAt | backend/app/routers/financial_data.py:66-69 | after the conversion loop each listed column holds its converted cells |
| FinancialData.MissingAfterConversion | backend/app/routers/financial_data.py:66-75 | after conversion no required cell is missing exactly when every required cell was a number or numeric text |
| FinancialData.ConvertColumns | backend/app/routers/financial_data.py:66-69 | the loop rewrites in place exactly the listed columns that need it, keeping the sheet's shape |
| FinancialData.ValidateTemplate | backend/app/routers/financial_data.py:50-77 | missing columns first (all of them, in list order), then no rows, then missing values after conversion, else (true, "Valid"); a valid sheet holds a number in every required cell |
| FinancialData.FirstOfMonth | backend/app/routers/financial_data.py:135 | the first of a month exists exactly for years 1..9999 and months 1..12 |
| FinancialData.PeriodBounds | backend/app/routers/financial_data.py:121-147 | monthly needs a month in 1..12 and quarterly a quarter in 1..4 (0 and none refused); a monthly period ends one month after it starts, on the 1st; a quarterly one starts in January, April, July or October and ends three months later; exactly which inputs succeed |
| FinancialData.UploadGate | backend/app/routers/financial_data.py:94-105 | a non-Manager gets 403 whatever the file; a Manager with a name not ending in .xlsx or .xls gets 400; otherwise the upload proceeds |
| FinancialData.NewPeriod | backend/app/routers/financial_data.py:169-177 | the stored period matches its own parameters and carries the given dates and uploader |
| FinancialData.NewRecords | backend/app/routers/financial_data.py:182-198 | one live record per sheet row, in the new period, holding that row's value of each required column in list order |
| FinancialData.Database.AppendRecords | backend/app/routers/financial_data.py:182-199 | the new records follow the existing ones in order; nothing else changes |
| FinancialData.Database.StorePeriod | backend/app/routers/financial_data.py:149-222 | a duplicate period is refused with a "failed" history row; no uploader row stores nothing; otherwise one period with a fresh id, one record per row and a "success" history row, and the period reads back as exactly those records |
| FinancialData.Database.Upload | backend/app/routers/financial_data.py:79-244 | the gates, then the template, then the period, then the store, in that order; every failure after the gates is a 500; which failures change which tables |
| FinancialData.Database.GetPeriodData | backend/app/routers/financial_data.py:261-288 | 404 exactly for an unknown period, else the period with its records that are not deleted |
| FinancialData.VisibleMembers | backend/app/routers/financial_data.py:280-283 | the read returns exactly the records of that period that are not deleted |
| FinancialData.VisibleAppend | backend/app/routers/financial_data.py:280-283 | reading a table grown at the end reads the old part then the new part |
| FinancialData.MarkDeleted | backend/app/routers/financial_data.py:317-319 | every record of the period is flagged deleted and every other record is left as it was |
| FinancialData.VisibleAfterDelete | backend/app/routers/financial_data.py:316-319 | after the soft delete nothing of that period is read, and every other period reads exactly as before |
| FinancialData.Database.DeletePeriod | backend/app/routers/financial_data.py:290-325 | a non-Manager gets 403, an unknown period 404, both with nothing changed; otherwise the period's records are flagged and the period removed |

## Left out

- JSX rendering, styling, animations and the `Logo` component: presentation only.
- `console.error` in the profile guard: logging only.
- The registration page's two-second redirect to /login: a timer outside the state the
  model keeps. The profile page's three-second message clearing is modelled as the
  explicit event `Profile.Component.SuccessTimerElapsed`.
- The axios client and its bearer-header interceptor: transport only. Its replies enter as
  the `RegisterReply`, `LoginReply` and `UpdateReply` inputs.
- bcrypt hashing and JWT handling: foreign libraries. The new password's hash is an input
  of `PasswordReset.Service.ResetPassword`, and the token's claims are the input
  `FinancialData.CurrentUser`.
- SMTP sending and `secrets.token_urlsafe`: network and randomness. The send outcome and
  the fresh token are inputs of `PasswordReset.Service.RequestReset`. The clock is an
  integer number of seconds passed in.
- PasswordReset.ResetIsSingleUse: requests are modelled as sequential, atomic steps against
  the token table. The endpoints are plain functions that the server may run on worker
  threads over the shared module-level table. Two resets carrying the same token could
  both pass the expiry check before either deletes the token, and then both would set a
  hash. Single use is proved only for requests handled one at a time.
- Request-body validation by FastAPI/pydantic (the `EmailStr` check, 422 replies and their
  list-shaped `detail`): framework behaviour outside the routers.
- StoredUser.Parse: only a JSON object whose values are strings or `null` is understood,
  and within a string, `\u` escapes of UTF-16 surrogates (`\uD800`–`\uDFFF`) are refused.
  `JSON.parse` accepts a surrogate pair such as `"\ud83d\ude00"` as one character, and the
  page would admit such a user; the model's guard drops it. Other JSON values, and
  objects with number, boolean, array or object fields, are also treated as unparseable.
  A stored non-zero number, non-empty string, `true` or array would be admitted by the
  page. A stored `0`, `false` or `""` leaves the page on its loading spinner, with no
  redirect and `'user'` kept, where the model removes `'user'` and redirects. A stored
  `null` makes the page throw at `currentUser.full_name`, so the page removes `'user'`
  and redirects, as the model does.
- StoredUser.UserProfile: keeps `full_name`, `email` and `role`; other fields of the
  user object play no part in the pages' logic.
- Profile.Component.HandleCancel: restores the form with the `|| ''` fallback. The page
  uses `user.full_name` and `user.email` as they are, so an absent field would become
  `undefined`, which a string field cannot hold.
- FinancialData.Cell: reading the workbook (`read_excel`, the "Excel file is empty" reply)
  is I/O; the sheet enters as a `DataFrame`. Cells are blank, a real number or text.
  Only plain decimal numerals count as numeric text. Boolean cells, exponents and
  the other spellings `to_numeric` accepts are not modelled.
- FinancialData.ValidateTemplate: the "Column ... contains non-numeric values" branch is
  not modelled. With `errors='coerce'` the conversion does not raise.
- FinancialData.CellValue: floating-point conversion is not modelled; values are reals.
- Python's `datetime`: modelled only as far as the year 1..9999 and month 1..12 bounds on
  the first of a month.
- The database session, `flush`, `commit` and failures inside them: modelled as direct
  updates of the three tables. A new period takes the next id in increasing order, and
  ids are not reused.
- The ORM cascade on the period's records: the model keeps the soft-deleted records after
  the period row is removed. If the cascade hard-deletes them, the read of that period
  still returns 404 and other periods are unaffected.
- The text of the 500 replies (`Error processing file: ...`), the `error_message` of a
  "failed" upload-history row (`str(e)`), and the 201 body beyond the period id and row
  count: the model keeps the reason and the status, and the history row has no message
  field.
- FinancialData.Database.Upload: the query defaults `period_type="monthly"` and
  `year=2025` are not modelled. The period type and year are always explicit inputs.
- FinancialData.Visible: the read returns the period's records in table order. The query
  has no `order_by`, so the database may return them in any order. The model fixes
  insertion order.
- `get_all_periods` and the `/template` endpoint: a plain query and a static description,
  with nothing to decide.
