# CustomsBridge client registration, modelled in Dafny

CustomsBridge registers the importers and exporters a customs broker works
for. This project models three parts of it:

- **The backend** (`backend/server.ts`). It validates a registration body in three steps: required fields, then the email pattern, then the 15-character GSTIN. It refuses a body whose email or GSTIN is already stored. It builds the new record by spreading the body between a generated id and the server-set date and status, then appends it. It lists the clients, looks one up by id, and folds the collection into statistics that carry the fixed figures 12, 3 and 45.
- **The admin dashboard** (`src/pages/AdminDashboard.tsx`). It computes the same statistics fold over the saved list. It has a case-insensitive search over four fields followed by a client-type filter, the badge colour of each client type, and the CSV export text.
- **The registration page** (`src/pages/Register.tsx`). It holds the form state and the per-field update, upper-cases GSTIN input, keeps a client-side copy of the backend's validation, and has the submit handler, which sends only a form that passes.

Modules, one per file:

- `JsText`: the JavaScript string operations the program uses: the `\s` class, `.length` in UTF-16 code units, `toLowerCase`/`toUpperCase`, `includes` and `Array.prototype.join`. It also holds two helpers of the model's own: `IndexOf` locates the `@` for the email check, and `Split` reads the CSV text back into lines and cells.
- `JsArray`: `filter` and `map`.
- `Records`: the client record.
- `Validation`: the body rules.
- `ClientStats`: the statistics fold, shared by backend and dashboard.
- `Server`: the endpoints, with the collection as the class `ClientStore`.
- `AdminDashboard`: the dashboard logic.
- `RegisterPage`: the form, with the page state as the class `Page`.

Things the program gets from its environment are parameters of the model:

- The current time enters as `generatedId` (`Date.now().toString()`), `timestamp` (`new Date().toISOString()`) and the current `month`/`year`.
- Date parsing (`new Date(s)` read in local time) is a function `parse: string -> LocalDate`; its `InvalidDate` result stands for the NaN of an unparsable date.
- `formatDate` is a function parameter.
- The backend's reply as the page receives it is an argument of `HandleSubmit`.

A request body is a map from member names to strings. A member counts as missing when it is absent or empty, as JavaScript's `!value` does for strings.

Ids are not kept unique. `backend/server.ts:122-127` spreads the body after the generated id, so a body that carries an `id` member keeps it, even when another client already has that id; `Server.SuppliedIdIsShadowed` shows that a later lookup by that id returns the earlier client. Two registrations in the same millisecond would also share a generated id. Only emails and GSTINs are kept unique (`Server.ClientStore.Register`).

## Model

| member | source | states |
|---|---|---|
| `Validation.MissingExactly` | backend/server.ts:79-80 | the missing list holds exactly the required fields that are absent or empty, in the fixed order; it is empty exactly when all five are present and non-empty |
| `Validation.ValidEmailIffRegex` | backend/server.ts:91-92 | the executable email check accepts exactly the strings matching `^[^\s@]+@[^\s@]+\.[^\s@]+$`, with `\s` the ECMAScript whitespace and line-terminator set |
| `Validation.Validate` | backend/server.ts:79-105 | the verdict for a body: missing fields (with the list) iff some required field is blank; otherwise invalid email iff the pattern fails; otherwise invalid GSTIN iff its length is not 15 code units; accepted iff all three pass |
| `Validation.AcceptedMeans` | backend/server.ts:79-105 | an accepted body has every required field non-empty, an email matching the pattern and a GSTIN of 15 code units |
| `Validation.NotAnEmailRejected` | backend/server.ts:91-97 | a complete body whose email has no `@` is refused with Invalid Email |
| `Validation.SampleEmailValid` | backend/server.ts:91 | `a@b.co` passes the email check |
| `Validation.ShortGstinRejected` | backend/server.ts:99-105 | a complete body whose email matches the pattern but whose GSTIN is not 15 code units long is refused with Invalid GSTIN |
| `Validation.FiveCharacterGstinRejected` | backend/server.ts:99-105 | a complete body with the email `a@b.co` and the GSTIN `SHORT` is refused with Invalid GSTIN |
| `Validation.Missing` | backend/server.ts:79-80 | the required fields filtered by "absent or empty", in their fixed order; its meaning is stated by `Validation.MissingExactly` |
| `Validation.ValidEmail` | backend/server.ts:91-92 | the executable email check: no whitespace, exactly one `@` with something before it, and an inner `.` after it; proved equal to the pattern by `Validation.ValidEmailIffRegex` |
| `Validation.ValidGstin` | backend/server.ts:100 | the GSTIN is exactly 15 UTF-16 code units long, with no format check |
| `JsText.Utf16Length` | backend/server.ts:100 | `.length` counts UTF-16 code units: between the character count and twice it, and equal to it exactly when every character is in the Basic Multilingual Plane |
| `JsText.IncludesIff` | src/pages/AdminDashboard.tsx:79-82 | `includes` holds exactly when the pattern occurs at some position of the string |
| `JsText.ToLower` | src/pages/AdminDashboard.tsx:79-82 | lower-casing keeps the length, leaves no upper-case letter and keeps every other character |
| `JsText.ToUpper` | src/pages/Register.tsx:188 | upper-casing keeps the length, leaves no lower-case letter and keeps every other character |
| `JsText.ToLowerIdempotent` | src/pages/AdminDashboard.tsx:79-82 | lower-casing twice is lower-casing once, and lower-casing after upper-casing is plain lower-casing |
| `JsText.ToUpperIsUpperCase` | src/pages/Register.tsx:188 | upper-casing leaves no lower-case letter, is idempotent and keeps every non-letter |
| `JsText.SplitJoin` | src/pages/AdminDashboard.tsx:124 | splitting a join at a separator that no part contains gives the parts back |
| `JsArray.FilterMembers` | backend/server.ts:80 | an element is in `filter`'s result exactly when it is in the input and satisfies the predicate |
| `JsArray.FilterIsSubsequence` | src/pages/AdminDashboard.tsx:78 | `filter` keeps the input's order |
| `JsArray.FilterFuse` | src/pages/AdminDashboard.tsx:75-88 | two filters in a row equal one filter by the conjunction |
| `JsArray.FilterIdempotent` | src/pages/AdminDashboard.tsx:78 | filtering twice by one predicate is filtering once |
| `JsArray.FilterMap` | src/pages/Register.tsx:36 | filtering images equals imaging the corresponding filter's result |
| `Records.OrEmpty` | src/pages/AdminDashboard.tsx:117 | the JavaScript or-empty default of a possibly absent field: the cell is empty exactly when the field is absent or empty, and a non-empty cell is the field's value |
| `ClientStats.Step` | backend/server.ts:194-208 | the reducer body for one client: total plus one, month count plus one for a date in the current month and year, and one bucket plus one for an exact type match; its effect is stated by `ClientStats.StepEffect` |
| `ClientStats.TallyOf` | backend/server.ts:194-218 | the left fold of the reducer from all zeros, shared with src/pages/AdminDashboard.tsx:52-67; its counts are stated by `ClientStats.TallyCounts` |
| `ClientStats.TallyCounts` | backend/server.ts:194-218 | the fold's total is the number of clients; each type count is the number of clients with exactly that type; the month count is the number registered in the current month and year |
| `ClientStats.TallyBounds` | backend/server.ts:194-218 | the three type counts sum to at most the total, and the month count is at most the total |
| `ClientStats.StepEffect` | backend/server.ts:195-206 | one reducer step adds one to the total, one to the bucket of an exactly matching type, and one to the month count when the date falls in the current month and year |
| `ClientStats.UnknownTypesCountInTotalOnly` | backend/server.ts:202-206 | clients of any other type are counted in the total and in no type bucket |
| `ClientStats.EmptyTally` | backend/server.ts:209-214 | no clients give all-zero counts |
| `ClientStats.FourTypesExample` | backend/server.ts:194-208 | an exporter, an importer, a "both" and an "other" give 1, 1, 1 of a total of 4 |
| `Server.NewRecord` | backend/server.ts:122-127 | the stored record built from the body by the spread; its overrides are stated by `Server.NewRecordOverrides` |
| `Server.NewRecordOverrides` | backend/server.ts:122-127 | the stored record has status "Active" and the server's timestamp whatever the body says; its id is the body's `id` when present, else the generated one |
| `Server.FirstCollision` | backend/server.ts:110-112 | the position of the first client with the same email or the same GSTIN, with none colliding before it |
| `Server.FirstWithId` | backend/server.ts:168 | the position of the first client with the id, with none before it having it |
| `Server.AppendKeepsKeysUnique` | backend/server.ts:109-129 | appending a client that collides with no stored one keeps emails and GSTINs unique |
| `Server.LookupAfterAppend` | backend/server.ts:129 | after an append, a lookup of the new client's id finds it exactly when no earlier client has that id, else finds the same earlier client |
| `Server.SuppliedIdIsShadowed` | backend/server.ts:122-127 | a body naming an existing id is stored under it, and a lookup by that id returns the earlier client |
| `Server.ClientStore.constructor` | backend/server.ts:50-58 | a database without a file starts with no clients |
| `Server.ClientStore.Load` | backend/server.ts:59 | a database read from its file holds the saved clients |
| `Server.ClientStore.FindExisting` | backend/server.ts:110-112 | the first stored client whose email or GSTIN collides, or none |
| `Server.ClientStore.Register` | backend/server.ts:74-135 | a rejected body gets its validation error; a colliding body is refused as Client Exists; either way nothing is stored; otherwise the new record is appended and returned; unique emails and GSTINs stay unique |
| `Server.ClientStore.List` | backend/server.ts:147-153 | every stored client in insertion order, and their number |
| `Server.ClientStore.GetById` | backend/server.ts:164-177 | the first stored client with the id, or Not Found |
| `Server.ClientStore.GetStats` | backend/server.ts:188-220 | the five counts are the fold over the stored clients; the three fixed figures are 12, 3 and 45 |
| `Server.StatsReplyFacts` | backend/server.ts:188-220 | in the stats reply the total is the number of clients, the counts bound each other, an empty store gives zeros, and the fixed figures are 12, 3, 45 |
| `AdminDashboard.ComputeStats` | src/pages/AdminDashboard.tsx:49-67 | the dashboard's loop gives the same fold as the backend's statistics |
| `AdminDashboard.Load` | src/pages/AdminDashboard.tsx:40-71 | with a saved list, the clients and the filtered list become that list and the stats are its fold; without one, everything stays empty and zero |
| `AdminDashboard.MatchesSearch` | src/pages/AdminDashboard.tsx:78-83 | the lower-cased term is included in the lower-cased company, contact, email or GSTIN; its meaning is stated by `AdminDashboard.SearchIsSubstring` |
| `AdminDashboard.Filtered` | src/pages/AdminDashboard.tsx:75-90 | the search filter for a non-empty term, then the type filter unless "all"; its meaning is stated by `AdminDashboard.FilteredFacts` |
| `AdminDashboard.FilteredIsOneFilter` | src/pages/AdminDashboard.tsx:73-91 | the search filter then the type filter equal one filter by "term empty or matching, and type all or equal" |
| `AdminDashboard.FilteredFacts` | src/pages/AdminDashboard.tsx:73-91 | a client is listed exactly when it is in the list and passes both filters; the listing keeps the list's order; re-filtering changes nothing |
| `AdminDashboard.UnfilteredListsAll` | src/pages/AdminDashboard.tsx:75-88 | an empty term and type "all" list every client |
| `AdminDashboard.SearchIsSubstring` | src/pages/AdminDashboard.tsx:77-84 | the search keeps a client exactly when the lower-cased term occurs in its lower-cased company, contact, email or GSTIN |
| `AdminDashboard.TypeColor` | src/pages/AdminDashboard.tsx:101-108 | green, blue and purple badges for exporter, importer and both; gray exactly for every other type |
| `AdminDashboard.ColorAgreesWithBuckets` | src/pages/AdminDashboard.tsx:101-108 | a badge is gray exactly when the stats fold puts the client in no type bucket, and each colour matches its bucket |
| `AdminDashboard.CsvRow` | src/pages/AdminDashboard.tsx:113-123 | a client's row has one cell per header column |
| `AdminDashboard.CsvLine` | src/pages/AdminDashboard.tsx:124 | one client's row joined with commas; read back by `AdminDashboard.CsvCells` |
| `AdminDashboard.CsvLines` | src/pages/AdminDashboard.tsx:111-124 | the header line followed by one line per listed client, in order |
| `AdminDashboard.ExportCsv` | src/pages/AdminDashboard.tsx:110-124 | the lines joined with newlines, with no quoting; read back by `AdminDashboard.CsvLineLayout` |
| `AdminDashboard.HeaderLine` | src/pages/AdminDashboard.tsx:112 | the header line splits at commas into the nine column titles and has no newline |
| `AdminDashboard.NoNewlineInLine` | src/pages/AdminDashboard.tsx:124 | a row whose cells hold no newline gives a line without one |
| `AdminDashboard.CsvLineLayout` | src/pages/AdminDashboard.tsx:110-124 | when no cell holds a newline, the export splits into the header line and then one line per listed client, in order |
| `AdminDashboard.CsvCells` | src/pages/AdminDashboard.tsx:113-124 | when no cell holds a comma, a client's line splits into its nine cells, with the empty string for a missing phone, city or state |
| `RegisterPage.With` | src/pages/Register.tsx:31 | the form with one field replaced; its meaning is stated by `RegisterPage.WithSetsOneField` |
| `RegisterPage.ValidateForm` | src/pages/Register.tsx:34-69 | missing fields first, then the email pattern, then the GSTIN length, each with its toast title; proved to agree with the backend by `RegisterPage.FormCheckMatchesServer` |
| `RegisterPage.BodyOf` | src/services/api.ts:92 | the JSON body of a form, all ten members under their names; stated by `RegisterPage.BodyOfMembers` |
| `RegisterPage.WithSetsOneField` | src/pages/Register.tsx:30-32 | updating a field sets it, keeps every other field, and no other form has those fields |
| `RegisterPage.BodyOfMembers` | src/services/api.ts:89-93 | the body sent for a form carries all ten form members under their JSON names |
| `RegisterPage.SameMissingList` | src/pages/Register.tsx:35-36 | the form's missing list names the fields of the backend's missing list for that form's body, in the same order |
| `RegisterPage.FormCheckMatchesServer` | src/pages/Register.tsx:34-69 | the form check passes exactly when the backend accepts the form's body, and otherwise its toast title is the backend's error title |
| `RegisterPage.SentBodiesPassServerValidation` | src/pages/Register.tsx:74-79 | a form the page sends always passes the backend's validation |
| `RegisterPage.Page.constructor` | src/pages/Register.tsx:15-28 | the form starts with ten empty fields and the page is not submitting |
| `RegisterPage.Page.HandleInputChange` | src/pages/Register.tsx:30-32 | the form becomes the old one with one field replaced |
| `RegisterPage.Page.OnInput` | src/pages/Register.tsx:188 | the GSTIN input stores the upper-cased value, so the stored GSTIN holds no lower-case letter; other inputs store the value as typed |
| `RegisterPage.Page.HandleSubmit` | src/pages/Register.tsx:71-113 | a form failing the check sends nothing and changes nothing; a passing form is sent, the stored current client is replaced only by the client of a reply without an error, and submitting ends; only passing forms are ever sent |

## Left out

- Persistence: `initializeDB` and `saveDB` read and write `db.json` on every request. The model keeps the collection in memory, and `ClientStore.Load` stands for reading the file. I/O errors and the 500 replies of the `catch` blocks are not modelled.
- The HTTP layer: Express routing, CORS, JSON parsing, status codes on the wire, and the health route. Each error carries its title and status (`ApiError.Title`, `ApiError.Status`).
- The user records, bcrypt and JWT: declared in the backend but not used by any modelled route.
- Concurrency: requests interleaving their read-modify-write of the file (a lost update) are not modelled. Each operation is atomic.
- A body is string members only. Non-string JSON values, and extra members that the spread copies into the record, are not modelled.
- JsText.ToLower: maps only the ASCII letters, where JavaScript's `toLowerCase` maps every Unicode letter.
- JsText.ToUpper: maps only the ASCII letters, where JavaScript's `toUpperCase` maps every Unicode letter, some to two characters.
- The browser's `maxLength` on the GSTIN and pincode inputs, and the choice list of the client-type select. Any string may be typed.
- The page's toasts, navigation, the one-second `setTimeout` and the Blob download of the CSV text. `ExportCsv` gives the text itself.
- The `catch` branch of `handleSubmit` (a request that throws). The intermediate `isSubmitting == true` state is visible only inside `HandleSubmit`.
- `src/services/api.ts` beyond the request body it sends. `src/pages/Index.tsx` and `src/pages/Dashboard.tsx` are not part of this model.
- The CSV export does no quoting. `CsvLineLayout` and `CsvCells` therefore hold only when no cell contains a newline or a comma; a cell that does breaks the layout.
- Date formatting (`toLocaleDateString('en-IN', …)`) and local-time date parsing are parameters, not definitions.
