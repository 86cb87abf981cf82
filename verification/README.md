# NVD change-history dashboard: a Dafny model

The system is a small dashboard for NVD CVE change records. A FastAPI service
(`backend/app.py`) serves these endpoints:

- `/cves`: a filtered, newest-first list, ten records per page;
- `/export`: the filtered rows as CSV, newest first and unpaged, matching the
  CVE ID exactly;
- `/stats`: counts per event name and per month;
- `/register` and `/login`.

A Next.js front end talks to it through three pages:

- the dashboard (`frontend/src/app/page.tsx`);
- the login page (`frontend/src/app/login/page.tsx`);
- the signup page (`frontend/src/app/signup/page.tsx`).

This project models both halves and proves what they promise.

On the API side, every handler is a function of an in-memory copy of the
`cve_changes` and `nvd_users` tables. Their row shapes are those of
`CVEChange.as_dict` (`backend/models.py:23-31`). The model covers:

- the ILIKE substring filters and the export's exact CVE ID match;
- the ORDER BY `created` DESC;
- offset/limit paging, with `page_size` at the default `max_page_size` of 10
  (`backend/config.py:10`), and the ceiling arithmetic of `total_pages`;
- the GROUP BY counts behind `/stats` and the `"YYYY-MM"` month keys;
- the CSV row layout;
- register's session steps (add, commit, refresh, rollback);
- login's token issue;
- the `try`/`except Exception` wrapper that turns every failure into a 500.

That last point includes the handlers' own `HTTPException(401)`: a rejected
token comes back as status 500 with the detail `"401: Invalid token"`.

On the page side:

- The dashboard's `Home` component is a class whose fields are its `useState`
  cells. Its handlers and effects are methods, and each request is one step that
  receives the outcome it settled with (`Browser.Answer`).
- The request queries, the chart projection and the details cell are functions.
- The login and signup pages are classes. Their `handleSubmit` is split at its
  `await` into a validation step and an outcome step, with a pure `Classify`
  function giving the outcome.

The `Wire` module states what happens where the two halves meet:

- what the API reads from the dashboard's queries;
- what a whitespace-only filter field does;
- what the dashboard makes of error bodies, since it never checks `response.ok`
  on the list and stats requests;
- why the page's plain string sort of the month keys is chronological. This
  holds from year 1000 on, because `%Y` is not zero-padded below that.

## Behaviour as written

- **Stale responses.** Nothing discards an out-of-date list response.
  `Home.FetchData` applies whatever answer it is given.
- **Logout.** `logout` removes the stored token and replaces the route. It does
  not reset the list, the stats or the charts.
- **List failures.** Only a thrown request leaves the table as it was: `data`
  and `totalPages` keep their values. An error body sets both to undefined, so
  the table shows its "No data found" row while the next button stays enabled
  (`Wire.DeliverList`).
- **Authentication failures.** No handler answers 401: the 401 a handler
  raises is re-raised as a 500. Only the framework's bearer check answers 401,
  when the header is missing. The pages do not log out when a request fails.

## Model

| member | source | states |
|---|---|---|
| Text.Decimal | backend/app.py:184 | the decimal notation of n is a canonical digit string (no leading zero) that reads back as n |
| Text.Trim | frontend/src/app/page.tsx:38-39 | the trimmed string is empty exactly when the input is all whitespace; otherwise it starts and ends with a non-space; an already trimmed string is unchanged |
| Text.TrimInner | frontend/src/app/page.tsx:38-39 | the trimmed string is the part of the input between a whitespace-only front and a whitespace-only back |
| Text.ILike | backend/app.py:89 | ILIKE '%p%': p occurs in s, compared after ASCII case folding |
| Text.DigitsOrder | backend/app.py:184 | on equal-width digit strings, string order is numeric order and equality is equality of values |
| Text.SplitJoin | frontend/src/app/page.tsx:275 | joining newline-free lines with "\n" and splitting at "\n" gives the lines back |
| Sorting.InsertionSortSorted | frontend/src/app/page.tsx:115 | under a total relation, the sorted sequence is ordered neighbour by neighbour (and InsertionSort keeps the multiset) |
| Records.Lookup | frontend/src/app/page.tsx:116 | obj[k] is defined exactly when k is a key, and the result is a pair of the object |
| Records.LookupAt | frontend/src/app/page.tsx:116 | with distinct keys, each entry's key looks up that entry's value |
| Records.Param | backend/app.py:66-69 | the value read for a key is one of the pairs with that key; absent only when no pair has the key |
| Records.ParamLast | backend/app.py:66-69 | a repeated key reads as its last pair: no pair after the one read carries the key |
| Records.ParamConcat | frontend/src/app/page.tsx:36-40 | appended pairs decide the keys they carry; other keys are read from the earlier pairs |
| Backend.Message | backend/app.py:107-108 | str(e): a driver error's own message; for an HTTPException, the status's digits (reading back as the status), then ": ", then the detail |
| Backend.Guard | backend/app.py:107-108 | the handler succeeds exactly when its body did; every failure, including a raised HTTPException, becomes a 500 carrying str(e) |
| Backend.InvalidTokenText | backend/app.py:75-76 | a rejected token's 500 carries the text "401: Invalid token" |
| Backend.FindUser | backend/app.py:78-79 | a found user is in the table with that email; none is found only when no row has it |
| Backend.Authenticate | backend/app.py:74-82 | passes exactly when the token decoded, the lookup did not fail and a user with the token's sub exists; a missing token is "Invalid token", an unknown user "Unauthorized", a failing lookup the driver's own error |
| Backend.ListMatch | backend/app.py:88-91 | a truthy cve_id and a truthy event_name each require a case-insensitive substring match; a missing or empty one filters nothing |
| Backend.ExportMatch | backend/app.py:130-133 | a truthy cve_id requires an equal CVE ID, a truthy event_name a case-insensitive substring match |
| Backend.Select | backend/app.py:88-91 | keeps each accepted row with its multiplicity and drops every other row |
| Backend.NewestFirst | backend/app.py:86 | the same rows (as a multiset), each created no later than the one before it |
| Backend.ListSelection | backend/app.py:86-91 | exactly the table's rows that match both substring filters, with their multiplicities, newest first |
| Backend.ExportSelection | backend/app.py:128-133 | exactly the table's rows whose CVE ID equals the given one and whose event name contains the given text, newest first |
| Backend.ExportWithinList | backend/app.py:130-133 | a row exported under a filter is also listed under it |
| Backend.PageSlice | backend/app.py:95 | the page holds min(10, rows left) rows, the i-th being row (page-1)*10+i, and none past the end |
| Backend.TotalPages | backend/app.py:104 | the page count is 0 exactly when nothing matches, and otherwise the least t with total <= 10*t |
| Backend.PageHasRows | backend/app.py:95-104 | page p holds rows exactly when p <= total_pages |
| Backend.ReadListParams | backend/app.py:67-69 | page defaults to 1, is accepted as a plain digit string denoting at least 1 (else 422), and cve_id and event_name are read as given |
| Backend.ListPage | backend/app.py:84-106 | the body echoes the page, has page_size 10, counts all matching rows before slicing, covers them with total_pages, holds at most 10 rows, and holds rows exactly when page <= total_pages |
| Backend.PageSliceOrdered | backend/app.py:95 | a page of a newest-first sequence holds rows of it, newest first |
| Backend.ListPageRows | backend/app.py:95-98 | the returned rows are matching table rows, newest first, and are the page-th run of the whole selection |
| Backend.GetCves | backend/app.py:65-108 | an invalid query is a 422; otherwise 200 with the page exactly when authentication passes and neither the count nor the page statement raises; every failure inside the try is a 500 carrying str(e): the authentication fault (never a 401), else the first failing statement's message |
| Backend.CsvRow | backend/app.py:140-147 | one cell per column of the six-column header: id, CVE ID, event name, source identifier, created, details |
| Backend.WriteRows | backend/app.py:138-147 | the fixed six-column header followed by one row per record, in order |
| Backend.ExportCves | backend/app.py:110-152 | 200 exactly when authentication passes and the export statement does not raise, with the header and one row per exported record, newest first; an authentication fault is a 500 carrying str(e), a failing statement a 500 carrying its message |
| Backend.Bump | backend/app.py:176 | counting one more occurrence of k keeps existing keys in place, appends k when new, and adds one to the total |
| Backend.BumpLookup | backend/app.py:176 | k's count goes up by one (from nothing to 1), every other key's count is unchanged |
| Backend.BumpDistinct | backend/app.py:176 | counting keeps the keys distinct |
| Backend.Tally | backend/app.py:170-176 | distinct keys, each key's count is its number of occurrences, absent keys have none, and the counts add up to the number of items |
| Backend.MonthKey | backend/app.py:184 | the key reads back as the year, a "-", and the month in two digits |
| Backend.MonthKeyOrder | backend/app.py:184 | from year 1000 on, month keys are seven characters, equal exactly for the same month, and in string order exactly when in calendar order |
| Backend.GetStats | backend/app.py:154-192 | 200 exactly when authentication passes and neither GROUP BY statement raises, otherwise 500 carrying the authentication fault's str(e) or the first failing statement's message; per event and per month, every count is that key's number of records, absent keys have none, and each map's counts add up to the number of records |
| Backend.Login | backend/app.py:231-250 | 200 exactly when the user exists and the password checks out, with a bearer token whose sub is the submitted username; every failure is a 500, "401: Invalid credentials" when the lookup worked and the driver's message when it raised |
| Backend.IssuedTokenAuthenticates | backend/app.py:246-247 | a token issued by login passes the data endpoints' authentication |
| Backend.Session.Add | backend/app.py:221 | the new row is pending after the earlier ones |
| Backend.Session.Commit | backend/app.py:224 | a commit that succeeds makes the pending rows permanent; one that fails changes nothing |
| Backend.Session.Rollback | backend/app.py:228 | pending rows are dropped |
| Backend.Register | backend/app.py:208-229 | an existing email gets 409 and no change; otherwise exactly User(email, hash) is added and the answer is 201; a failed commit is a 500 with no change; a failed refresh is a 500 with the user already added |
| Browser.DetailOr | frontend/src/app/login/page.tsx:49 | the server's detail when truthy, otherwise the fallback, so a non-empty fallback never gives an empty message |
| LoginForm.Problem | frontend/src/app/login/page.tsx:24-27 | the form is stopped exactly when the email or the password is empty, with "Please enter both email and password." |
| LoginForm.Body | frontend/src/app/login/page.tsx:34-36 | the form body has exactly username (the email) and then password, and reads back as them |
| LoginForm.Classify | frontend/src/app/login/page.tsx:46-61 | signed in exactly when the response is ok with a truthy access_token, which is the token kept; a non-ok response gives the detail or "Login failed", an ok one without a token "Login failed", a throw its own message; a response never gives an empty error |
| LoginForm.LoginPage.constructor | frontend/src/app/login/page.tsx:10-13 | the initial state: empty email, password and error, not loading |
| LoginForm.LoginPage.Mount | frontend/src/app/login/page.tsx:15-19 | with a truthy stored token the page goes to "/", otherwise it stays |
| LoginForm.LoginPage.BeginSubmit | frontend/src/app/login/page.tsx:24-30 | a failed check sets its message and sends nothing, leaving loading; a passed check clears the error, sets loading and sends the form body |
| LoginForm.LoginPage.FinishSubmit | frontend/src/app/login/page.tsx:46-64 | a failure sets the error line and stores nothing; a sign-in stores the token under "token" and goes to "/"; loading ends false |
| LoginForm.LoginPage.HandleSubmit | frontend/src/app/login/page.tsx:21-65 | the composition: nothing is sent on a failed check, and after a request loading is false and the outcome is applied |
| SignupForm.Problem | frontend/src/app/signup/page.tsx:19-27 | the form is stopped exactly when a field is empty ("Please fill in all fields.", checked first) or the passwords differ ("Passwords do not match.") |
| SignupForm.Body | frontend/src/app/signup/page.tsx:34-36 | the form body has exactly email and then password, and reads back as them |
| SignupForm.Classify | frontend/src/app/signup/page.tsx:46-56 | registered exactly when the response is ok; a non-ok response gives the non-empty detail or "Signup failed", a throw its own message |
| SignupForm.SignupPage.constructor | frontend/src/app/signup/page.tsx:10-14 | the initial state: empty fields and error, not loading |
| SignupForm.SignupPage.BeginSubmit | frontend/src/app/signup/page.tsx:19-30 | a failed check sets its message and sends nothing, leaving loading; a passed check clears the error, sets loading and sends the form body |
| SignupForm.SignupPage.FinishSubmit | frontend/src/app/signup/page.tsx:46-59 | a failure sets the error line and stays; success goes to "/login"; loading ends false |
| SignupForm.SignupPage.HandleSubmit | frontend/src/app/signup/page.tsx:16-60 | the composition: nothing is sent on a failed check, and after a request loading is false and the outcome is applied |
| Dashboard.NumberText | frontend/src/app/page.tsx:37 | a non-negative page number's text reads back as that number |
| Dashboard.ExportQueryParams | frontend/src/app/page.tsx:143-146 | never carries page; carries cve_id and event_name only for non-empty fields, with the trimmed value |
| Dashboard.ListQueryParams | frontend/src/app/page.tsx:36-40 | page reads back as the page's text; cve_id and event_name appear only for non-empty fields, trimmed |
| Dashboard.ExportQueryKeys | frontend/src/app/page.tsx:143-146 | the export query's keys are exactly cve_id (if that field is filled) followed by event_name (if that one is) |
| Dashboard.ListQueryKeys | frontend/src/app/page.tsx:36-40 | the list query's keys are page followed by the export query's keys, and nothing else |
| Dashboard.BlankFieldSentEmpty | frontend/src/app/page.tsx:38-39 | a field of spaces is sent, as the empty string |
| Dashboard.BarChart | frontend/src/app/page.tsx:97-113 | one bar per entry of cves_per_event in the same order, label and number taken from that entry |
| Dashboard.ValuesOf | frontend/src/app/page.tsx:116 | one value per key, each the value the object holds for it |
| Dashboard.LineChart | frontend/src/app/page.tsx:115-121 | the labels are the keys of cves_over_time (as a multiset) in ascending string order, each with its own count; an empty map gives an empty chart |
| Dashboard.Project | frontend/src/app/page.tsx:90-133 | nothing is drawn for null stats or a truthy detail; both charts are drawn exactly when both maps are present; a missing map throws, before or after the bar chart is set |
| Dashboard.ShownValue | frontend/src/app/page.tsx:275 | the new value when it is truthy, otherwise the old value as a template prints it |
| Dashboard.DetailLine | frontend/src/app/page.tsx:275 | one detail as "action: type -> value", the value being the new one or else the old one |
| Dashboard.DetailLines | frontend/src/app/page.tsx:275 | one formatted line per detail, in order |
| Dashboard.DetailsCell | frontend/src/app/page.tsx:274-276 | "No details found" exactly when there are no details; otherwise it starts with the first detail's line |
| Dashboard.DetailsCellLines | frontend/src/app/page.tsx:275 | when no line holds a newline, the cell splits back into exactly the detail lines |
| Dashboard.Home.constructor | frontend/src/app/page.tsx:15-27 | the initial state: not authenticated, no token, empty table, page 1 of 1, empty filters, no stats or charts, loading |
| Dashboard.Home.Logout | frontend/src/app/page.tsx:29-32 | the stored token is removed and the route becomes "/login"; nothing else changes |
| Dashboard.Home.Startup | frontend/src/app/page.tsx:177-185 | a truthy stored token is adopted and authenticates the page; otherwise logout |
| Dashboard.Home.FetchData | frontend/src/app/page.tsx:34-57 | sends the list query for the current page and applied filter; any response, ok or not, replaces data and totalPages with its fields; a throw leaves both |
| Dashboard.Home.ListEffect | frontend/src/app/page.tsx:59-61 | the list is fetched only with a non-empty token |
| Dashboard.Home.FetchStats | frontend/src/app/page.tsx:63-84 | any response body becomes the stats, a throw keeps them, and loading ends false |
| Dashboard.Home.StatsEffect | frontend/src/app/page.tsx:86-88 | the stats are fetched only with a non-empty token |
| Dashboard.Home.DrawCharts | frontend/src/app/page.tsx:90-133 | the chart fields take what the projection computes, and keep their values where it skips or throws first |
| Dashboard.Home.ApplyFilters | frontend/src/app/page.tsx:135-138 | the draft becomes the applied filter and the page becomes 1, whatever it was |
| Dashboard.Home.EditCveId | frontend/src/app/page.tsx:231 | only the draft's CVE ID changes; the applied filter does not |
| Dashboard.Home.EditEventName | frontend/src/app/page.tsx:242 | only the draft's event name changes; the applied filter does not |
| Dashboard.Home.PrevEnabled | frontend/src/app/page.tsx:291 | the previous button is enabled everywhere but page 1 |
| Dashboard.Home.NextEnabled | frontend/src/app/page.tsx:297 | the next button is disabled only when totalPages is defined and the page has reached it |
| Dashboard.Home.PrevPage | frontend/src/app/page.tsx:291 | away from page 1 the page goes down by one, on page 1 nothing happens; the page stays at least 1 |
| Dashboard.Home.NextPage | frontend/src/app/page.tsx:297 | below totalPages, or with totalPages undefined, the page goes up by one, otherwise nothing happens |
| Dashboard.Home.DownloadCsv | frontend/src/app/page.tsx:140-175 | sends the export query; saves "cve_data.csv" with the body exactly when the response is ok; only isDownloading is written, and it ends false |
| Dashboard.Open | frontend/src/app/page.tsx:177-187 | the page renders exactly when a truthy token is stored, and otherwise has gone to "/login" without a stored token |
| Wire.ListQueryReadBack | frontend/src/app/page.tsx:36-40 | the API reads the list query back as a valid request for the same page |
| Wire.ListFilterMeaning | backend/app.py:88-91 | a record is listed under the applied filter exactly when each field that is not blank is contained in it, trimmed and case-insensitively |
| Wire.ExportFilterMeaning | backend/app.py:130-133 | the same for the export, except that the CVE ID must equal the trimmed field |
| Wire.StatsReplyDrawn | frontend/src/app/page.tsx:97-113 | a /stats reply is drawn: every bar is an event name with its number of records, the bars add up to all records, and every line label is a month of some record |
| Wire.EmptyStatsFaultThrows | frontend/src/app/page.tsx:95-97 | a 500 whose message is empty passes the detail check and makes the chart effect throw |
| Wire.LineChartChronological | frontend/src/app/page.tsx:115 | from year 1000 on, labels later in the line chart never name earlier months |
| Wire.DeliverList | frontend/src/app/page.tsx:49-52 | an API refusal still replaces the table and the page count, both with undefined, which leaves the next button enabled |

## Left out

- Request transport: HTTP, JSON and form encoding, and URLSearchParams
  percent-encoding. Queries and form bodies are lists of key/value pairs.
  FastAPI's request validation (422) is modelled only for `page`.
- OAuth2 bearer extraction: the 401 the framework returns, outside any handler,
  when the Authorization header is missing is not modelled. The pages always
  send the header.
- `auth.py`: JWT signing and decoding, and bcrypt, are parameters.
  - The handlers receive the decoded claims (None when decoding fails).
  - Login receives the password check as a function.
  - Register receives the hash.
  - `Backend.IssuedTokenAuthenticates` relies on decoding giving back the
    claims the token was created with.
- Database I/O: each statement that can raise inside a handler's `try` has a
  message parameter, `Some` when it raises: the user lookup (`dbFault`), the count
  and page statements of `/cves`, the export statement and the two GROUP BY
  statements of `/stats`. A failure of register's first user lookup, which is
  outside its `try`, is not modelled.
- Backend.ReadListParams: accepts only plain digit strings for `page`. FastAPI's
  integer coercion may also accept other spellings, such as a sign or surrounding
  spaces, which the model answers with 422. The dashboard only sends plain digit
  strings (`Wire.ListQueryReadBack`).
- Backend.ListSelection: the order among rows with equal `created` is left to
  the database, and the model fixes one such order. Only "newest first" is
  stated.
- Backend.GetStats: the key order of `cves_per_event` follows the database's
  grouping. The model uses first appearance in the table. `cves_over_time` is
  ordered by month in the query (`backend/app.py:181`); the model keeps first
  appearance there too. The dashboard sorts the month keys itself, so the
  charts do not depend on this order.
- ILIKE is ASCII case-insensitive containment. Unicode case folding, the
  `%`/`_` wildcards inside a filter value and the backslash, which PostgreSQL
  reads as LIKE's default escape character, are not modelled: the model
  matches a filter value containing any of them literally.
- CSV text: quoting by Python's `csv` module, the rendering of `created` and of
  `str(details)`, and the `Content-Disposition` file name are not modelled. The
  export rows are lists of typed cells.
- Date handling: `toLocaleString` of `created` and the time zone used by
  `date_trunc` are not modelled. Timestamps are calendar fields with
  microseconds.
- Backend.MonthKeyOrder: holds from year 1000 on, because `%Y` is not
  zero-padded below that.
- Rendering: the JSX markup, Chart.js, `alert`, `console` and the Blob/anchor
  download mechanics. A download is a file name with its content.
- Concurrency: every request is one atomic step that receives the outcome it
  settled with. Interleavings of the list, stats and export requests are not
  modelled, and there is no stale-response guard to model.
- JSON bodies whose `detail` is not a string (FastAPI's 422 list) are not
  modelled. `detail` is an optional string.
- `backend/utils.py` (the NVD fetch loop), `database.py`, `layout.tsx` and the
  `/` health route are not part of this model.
