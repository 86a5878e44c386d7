# Diwali Family Carnival registrations, in Dafny

This project models the registration site for the Diwali Family Carnival and proves properties of that model. Families register for the carnival, or for one of its contests (Super Mom, Cutest Baby, Damdar Dada & Dadi Ji), through a modal form. The model covers:

- **Contest vocabulary** (`types.dfy`): the five-valued `Contest` enumeration and its string keys, the `RegistrationData` shape, and the constant contest table.
- **Register endpoint** (`register.dfy`):
  - a per-client fixed-window rate limiter, as a class over a map that each request updates;
  - the server's field checks, in their order;
  - the record that is stored and the payload forwarded to the spreadsheet web app;
  - `POST` itself, as a method over the limiter, the store and the list of webhook calls.
- **Field rules** (`validation.dfy`): the WhatsApp, name and e-mail regular expressions, written as character-class predicates. The e-mail regex has an existential definition and a decision procedure, and the two are proved equal.
- **Admin registrations endpoint** (`admin_api.dfy`, `store.dfy`):
  - the shared-secret gate and the `where` clause;
  - the store query as a filter plus a newest-first sort;
  - the CSV export as the code writes it: LF line breaks, an unquoted header, fields wrapped in `"` with nothing escaped;
  - a reader that gets an export's fields back;
  - the JSON listing.
- **Admin dashboard page** (`dashboard.dfy`):
  - the per-contest tally, as a loop over an accumulator map;
  - the client-side search and contest filter;
  - the page state, as a class.

  The filter is proved to agree with the server's query for the export parameters the page sends.
- **Registration form** (`modal.dfy`):
  - the name-input filter, the upload gate and the five validation rules;
  - the error map they build, and the form state as a class;
  - proofs that the form is stricter than the server.
- **Modal provider** (`context.dfy`): its open/close state.
- **Spreadsheet web app** (`sheets.dfy`): routing a contest to a sheet, creating a new sheet's header row, and the eleven-cell row it appends.

Strings are `seq<char>`.
- JavaScript `\s` is the exact ECMAScript whitespace and line-terminator set.
- Letters and case folding are ASCII.
- Time is a parameter: milliseconds as a `nat`, with ISO-8601 text kept opaque.
- The database is a sequence of `Registration` records.

## Where the description and the code differ

The model follows the code in each of these cases:

- **Server checks.** The server does not check name characters, age or the number of children. Only the form does. A body the form refuses can still be accepted by the endpoint (`Modal.ServerAcceptsWhatFormRefuses`).
- **Admin search.** The search also matches the WhatsApp number, case-sensitively, besides name and e-mail.
- **CSV line count.** An export of N records has N+1 lines only when no field holds a line feed. Every embedded line feed adds a line (`AdminApi.CsvLineCount`).
- **Rate limiter.** It is a fixed window, not a sliding one. A request at exactly `resetTime` still counts inside the window.

## Model

| member | source | states |
|---|---|---|
| Types.ContestEnumeration | src/lib/types.ts:1-7 | The enumeration has exactly five values, and every contest is listed. |
| Types.ParseContest | src/lib/types.ts:1-7 | Reading a string back as a contest gives a contest whose key is that string, and fails exactly for strings that are no contest's key. |
| Types.ParseContestRoundTrip | src/lib/types.ts:1-7 | Every contest reads back from its own key, so the five keys are distinct. |
| Types.Contests | src/lib/types.ts:34-110 | The table is total, and every entry is filed under its own id. Every entry has a non-empty rules list and the shared contact number. |
| Types.ContestTable | src/lib/types.ts:34-110 | `Object.values(CONTESTS)` lists one entry per contest, in declaration order. |
| Text.Trim | src/components/RegistrationModal.tsx:100-102 | `trim()` leaves no whitespace at either end. It is empty exactly when the input is all whitespace. |
| Text.TrimWindow | src/components/RegistrationModal.tsx:100-102 | The trimmed text is a window of the input, and everything outside that window is whitespace. |
| Text.DigitsOnly | src/app/api/register/route.ts:52 | `replace(/\D/g, '')` leaves only digits and changes nothing in a string of digits. |
| Text.DigitsOnlyAppend | src/app/api/register/route.ts:52 | Dropping non-digits distributes over concatenation. |
| Text.DigitsOnlyIdempotent | src/app/api/register/route.ts:52 | Dropping non-digits twice is the same as dropping them once. |
| Text.DigitsOnlyMultiset | src/app/api/register/route.ts:52 | Every digit is kept as often as it occurs in the input, and nothing else is kept. |
| Text.Lower | src/app/admin/page.tsx:116-118 | `toLowerCase()` keeps the length and leaves no upper-case letter. Each upper-case letter becomes the letter 32 code points above it, and every other character is kept. |
| Text.LowerIdempotent | src/app/admin/page.tsx:116-118 | Lower-casing twice is the same as lower-casing once. |
| Text.Includes | src/app/admin/page.tsx:116-118 | `includes` holds exactly when the needle occurs at some position. |
| Text.Split | src/app/api/admin/registrations/route.ts:96 | `split` gives at least one part, and no part holds the separator. |
| Text.SplitJoin | src/app/api/admin/registrations/route.ts:88-91 | Splitting a join of separator-free parts gives the parts back. |
| Text.JoinSplit | src/app/api/admin/registrations/route.ts:88-91 | Joining the parts of a split gives the text back. |
| Text.JoinCount | src/app/api/admin/registrations/route.ts:88-91 | A join holds the separators between its parts plus the occurrences inside the parts. |
| Text.SplitLength | src/app/api/admin/registrations/route.ts:96 | Splitting gives one more part than there are separators. |
| Text.IntToString | src/app/api/admin/registrations/route.ts:76 | A number prints as a non-empty string. |
| Text.ParseInt | src/components/RegistrationModal.tsx:42 | `parseInt` fails (NaN) exactly when no digits follow the leading whitespace and sign. Its value otherwise is given by `Text.ParseIntReads`. |
| Text.ParseIntReads | src/components/RegistrationModal.tsx:42 | Whitespace, an optional sign, a run of digits and then anything not starting with a digit parse as the signed value of the run. |
| Text.ParseIntRoundTrip | src/components/RegistrationModal.tsx:42 | A printed integer parses back to itself. |
| Validation.IsEmail | src/app/api/register/route.ts:61 | The scan-based e-mail test agrees with the regular expression read as "some `@` and a later `.` split the text into three non-empty parts without whitespace or `@`". |
| Validation.EmailTestCorrect | src/app/api/register/route.ts:61 | The scan-based test holds in both directions against the regular expression's reading. |
| Register.RateLimitStepCases | src/app/api/register/route.ts:14-24 | Covers the three cases of one step: <br>• a new or expired client gets `{1, now + 900000}` and is allowed; <br>• a full window is refused and the table unchanged; <br>• otherwise the count rises by one. <br>No other client's entry changes. |
| Register.RateLimitRefusal | src/app/api/register/route.ts:19-21 | A request is refused exactly when its client has five requests in a window that has not expired. |
| Register.RateLimitStepBounded | src/app/api/register/route.ts:7-24 | Every stored count stays between 1 and 5. |
| Register.RateLimitStep | src/app/api/register/route.ts:10-25 | After a step the caller has an entry whose window has not ended, no other key is added or removed, and a refused request leaves the table as it was. |
| Register.RunInsideWindow | src/app/api/register/route.ts:19-24 | Inside an open window, the i-th further request is allowed exactly when the count plus i is under 5. |
| Register.RunFreshWindow | src/app/api/register/route.ts:14-24 | Requests within 15 minutes of the first request of a new window: the first five are allowed and all later ones refused. |
| Register.SixthRequestRefused | src/app/api/register/route.ts:7-24 | Six requests at one instant from a new client: five pass and the sixth is refused. |
| Register.RateLimiter.constructor | src/app/api/register/route.ts:6 | The table starts empty. |
| Register.RateLimiter.CheckRateLimit | src/app/api/register/route.ts:10-25 | `checkRateLimit` returns the step's answer, leaves the step's table, and keeps counts within 1..5. |
| Register.ClientKey | src/app/api/register/route.ts:30 | The key is never empty. It is `x-forwarded-for` when that is non-empty, else `x-real-ip` when that is non-empty, else the shared key `unknown`. |
| Register.CheckBody | src/app/api/register/route.ts:43-66 | A body is accepted exactly when the name and number are present, the digits of the number are ten digits starting 6-9, and the e-mail is absent, blank or address-shaped. A missing name or number is reported first. An accepted body keeps the digits-only number. |
| Register.CheckBodyIgnoresOtherFields | src/app/api/register/route.ts:43-66 | Name characters, age, children, contest and message play no part in the server's verdict. |
| Register.ValidNumberKeptAsTyped | src/app/api/register/route.ts:51-58 | A well-formed ten-digit number is stored exactly as typed. |
| Register.SeparatorsIgnored | src/app/api/register/route.ts:52 | Non-digit separators inside the number do not change the verdict. |
| Register.CountryCodeRefused | src/app/api/register/route.ts:51-58 | A number written with `+91 ` in front is refused as not a 10-digit mobile number. |
| Register.WebhookRouting | src/app/api/register/route.ts:88-110 | The payload's contest routes each contest to its own sheet; GENERAL and NONE go to GeneralJoiners. |
| Register.WebhookRowCells | src/app/api/register/route.ts:90-101 | The sheet row built from the payload carries the timestamp, the digits-only number and the contest key. Its address and id cells are blank. |
| Register.NewRegistration | src/app/api/register/route.ts:71-84 | The stored record has the digits-only number, the client address and the body's contest. It meets the store's invariant exactly when the name is non-empty and the number is a mobile number. |
| Register.WebhookPayload | src/app/api/register/route.ts:90-101 | The payload's contest reads back as the body's contest. It carries the digits-only number and the timestamp, and has no address or id. |
| Register.RegisterRoute.constructor | src/app/api/register/route.ts:6 | Empty limiter table, empty store, no webhook calls. |
| Register.RegisterRoute.Post | src/app/api/register/route.ts:27-143 | The limiter is charged first, and a refusal is 429. A rejected body is 400 and still uses a slot. An accepted body appends exactly one record with the digits-only number and client key, calls the webhook once when it is configured, and answers 201 with the id. Stored records stay well formed. |
| Store.InsertNewestFirst | src/app/api/admin/registrations/route.ts:37-39 | Inserting into a newest-first list keeps it newest first and adds exactly that record. |
| Store.SortNewestFirst | src/app/api/admin/registrations/route.ts:37-39 | `orderBy: { createdAt: 'desc' }` gives a newest-first permutation of the input. |
| AdminApi.FindMany | src/app/api/admin/registrations/route.ts:37-54 | The query fails exactly for a contest that is not an enum key. Otherwise it returns newest-first records, each of which satisfies the `where` clause. |
| AdminApi.Authorized | src/app/api/admin/registrations/route.ts:8-9 | The request passes exactly when the header is present and equals the configured secret, so an unset secret admits nobody. |
| AdminApi.BuildWhere | src/app/api/admin/registrations/route.ts:21-34 | A kept contest is the parameter itself and is neither empty nor `ALL`; a kept search is the non-empty parameter. A record satisfies the clause exactly when the parameters select it. |
| AdminApi.CsvDocument | src/app/api/admin/registrations/route.ts:88-91 | With no records the export is the header line alone. Otherwise it is the header line, a line feed, and the data lines joined by line feeds. |
| AdminApi.Get | src/app/api/admin/registrations/route.ts:5-110 | 401 exactly without the right secret. A CSV export is returned only for `export=csv`, under today's file name. A listing is newest first, its `total` is its length and its filters echo the parameters. |
| AdminApi.NumberOrEmptyReadsBack | src/app/api/admin/registrations/route.ts:76-81 | `age \|\| ''` and `numberOfChildren \|\| ''` are empty exactly when the value is absent or 0, and otherwise parse back to the value. |
| AdminApi.CsvFields | src/app/api/admin/registrations/route.ts:73-86 | A record renders as twelve fields, one per header. |
| AdminApi.CsvFieldsFollowHeader | src/app/api/admin/registrations/route.ts:58-86 | Every field of a row sits under the header that names it. |
| AdminApi.ExportFileNameIsDate | src/app/api/admin/registrations/route.ts:96 | The file name is `registrations-<date>.csv`, where date is the ISO text before `T`. |
| AdminApi.ReadQuotedFirst | src/app/api/admin/registrations/route.ts:90 | The reader takes one quoted field, with no quote inside it, off the front of a line. |
| AdminApi.ReadQuotedJoin | src/app/api/admin/registrations/route.ts:90 | A line of quoted, comma-joined fields reads back to the fields when none holds a `"`. |
| AdminApi.QuoteAllCount | src/app/api/admin/registrations/route.ts:90 | Quoting adds no character other than `"`. |
| AdminApi.CsvLineFeeds | src/app/api/admin/registrations/route.ts:90 | A data line holds exactly the line feeds of its fields. |
| AdminApi.CsvLinesLineFeeds | src/app/api/admin/registrations/route.ts:90 | The data lines together hold exactly the line feeds embedded in the records. |
| AdminApi.HeadersHaveNoLineFeed | src/app/api/admin/registrations/route.ts:58-71 | No header name holds a line feed. |
| AdminApi.HeaderLineHasNoLineFeed | src/app/api/admin/registrations/route.ts:89 | The header line is one line. |
| AdminApi.CsvLineCount | src/app/api/admin/registrations/route.ts:88-91 | An export of N records splits into N + 1 lines, plus one per embedded line feed. |
| AdminApi.CsvLineReadsBack | src/app/api/admin/registrations/route.ts:73-90 | A record with no line feed and no `"` in any field renders as one line that reads back to its twelve fields. |
| AdminApi.CsvReadsBack | src/app/api/admin/registrations/route.ts:73-91 | Such an export has N + 1 lines. The first is the header, and line i + 1 reads back to record i's fields, in listing order. |
| AdminApi.GetChecksSecret | src/app/api/admin/registrations/route.ts:8-14 | Exactly the requests without the right secret get 401, whatever their parameters, and an unset secret refuses everyone. |
| AdminApi.GetUnknownContest | src/app/api/admin/registrations/route.ts:17-26 | An authorized request fails with 500 exactly when its contest is non-empty, not `ALL`, and no enum key. |
| AdminApi.ListingContents | src/app/api/admin/registrations/route.ts:21-54 | The listing holds every selected stored record, as often as it is stored, newest first. The selection is contest equality unless the contest is empty or `ALL`, and the three-way search unless the search is empty. |
| AdminApi.ListingUnfiltered | src/app/api/admin/registrations/route.ts:102-110 | Without parameters, an authorized request lists the whole store newest first. Any other request is refused. |
| AdminApi.ExportMatchesListing | src/app/api/admin/registrations/route.ts:56-110 | The CSV export succeeds exactly when the JSON listing does, and renders the same records in the same order. |
| Dashboard.CalculateStats | src/app/admin/page.tsx:66-74 | `total` is the length, and `byContest` holds exactly the contests that occur, each with its count. |
| Dashboard.ShownIsCount | src/app/admin/page.tsx:260 | A card's `byContest[c] \|\| 0` is the number of registrations for c. |
| Dashboard.DescribesUnique | src/app/admin/page.tsx:66-74 | The tally of a list is unique. |
| Dashboard.CountsPartition | src/app/admin/page.tsx:68-71 | The five per-contest counts sum to the length. |
| Dashboard.ShownSumToTotal | src/app/admin/page.tsx:227-260 | The four rendered contest cards (no NONE card) plus the number of registrations without a contest equal the total card, so the cards add up to the total exactly when no registration has contest NONE. |
| Dashboard.FilteredUnfiltered | src/app/admin/page.tsx:114-123 | With no search term and ALL selected, the whole source list is shown. |
| Dashboard.FilteredIsSubsequence | src/app/admin/page.tsx:114-123 | The shown list is an order-preserving subsequence of its source. Every entry passes the search and has the selected contest. |
| Dashboard.FilteredNewestFirst | src/app/admin/page.tsx:114 | Filtering a newest-first list keeps it newest first. |
| Dashboard.Filtered | src/app/admin/page.tsx:114-123 | Each record appears in the shown list as often as in its source when it passes the search and contest filters, and not at all otherwise. |
| Dashboard.EmptyNeverIncludes | src/app/admin/page.tsx:118 | An empty e-mail never matches a non-empty term, so the page's e-mail guard changes nothing. |
| Dashboard.ShowsAgreesWithServer | src/app/admin/page.tsx:114-123 | The page's filter selects exactly what the server selects for the `contest` and `search` parameters the export sends. |
| Dashboard.ExportMatchesView | src/app/admin/page.tsx:78-105 | For the export parameters, the server lists the same records, with the same multiplicities, as the page shows over the whole store. |
| Dashboard.AdminPage.constructor | src/app/admin/page.tsx:24-37 | Signed out, empty lists, empty search, ALL selected, zero stats. |
| Dashboard.AdminPage.SetPassword | src/app/admin/page.tsx:152 | Only the password changes. |
| Dashboard.AdminPage.Authenticate | src/app/admin/page.tsx:39-64 | Without a password nothing changes. A successful answer fills both lists, signs in and tallies the list. Any other answer sets `Invalid password` and keeps the rest. The cards always describe the full list. |
| Dashboard.AdminPage.SelectContest | src/app/admin/page.tsx:227-290 | The selector sets the contest, and a card also sets the active card. The counts do not change. |
| Dashboard.AdminPage.SetSearchTerm | src/app/admin/page.tsx:282 | Only the search term changes, and the counts stay. |
| Sheets.SheetName | google-apps-script.js:32-47 | SUPERMOM, CUTESTBABY and SENIORCITIZEN each have their own sheet, and exactly they do. Everything else, missing included, goes to GeneralJoiners. |
| Sheets.RowData | google-apps-script.js:73-85 | The appended row has the header's width. |
| Sheets.RowFollowsHeader | google-apps-script.js:54-85 | Every cell sits under the header that names it, with `''` defaults and `NONE` for a missing contest. |
| Sheets.ChildrenNotWritten | google-apps-script.js:73-85 | The number of children never changes the row. |
| Sheets.Spreadsheet.constructor | google-apps-script.js:28 | The spreadsheet starts with the given empty sheets. |
| Sheets.Spreadsheet.DoPost | google-apps-script.js:30-88 | The payload is routed to its sheet. An existing sheet gets one row appended, and a new one gets the header row then the row. No other sheet changes, and every row keeps the header's width. |
| ModalContext.RegistrationContext.constructor | src/contexts/RegistrationContext.tsx:16-17 | Closed, with no contest. |
| ModalContext.RegistrationContext.OpenModal | src/contexts/RegistrationContext.tsx:19-22 | Open, with the given contest or none. |
| ModalContext.RegistrationContext.CloseModal | src/contexts/RegistrationContext.tsx:24-27 | Closed, with no contest, from any state. |
| Modal.FilterName | src/components/RegistrationModal.tsx:33-38 | The filtered name holds only letters and whitespace and keeps the order of the input. |
| Modal.FilterNameIdempotent | src/components/RegistrationModal.tsx:34 | Filtering a filtered name changes nothing. |
| Modal.FilterNameKeepsLetters | src/components/RegistrationModal.tsx:34 | A name of letters and whitespace passes unchanged. Every letter or whitespace character survives and every other character is dropped. |
| Modal.FilterNameMultiset | src/components/RegistrationModal.tsx:34 | Every letter and whitespace character is kept as often as it occurs, and nothing else is kept. |
| Modal.TrimmedNameText | src/components/RegistrationModal.tsx:100-104 | The trimmed name matches `/^[a-zA-Z\s]+$/` exactly when the name is not blank and every character is a letter or whitespace. |
| Modal.NameError | src/components/RegistrationModal.tsx:100-104 | There is a name error exactly when the name is blank or holds another character. A blank name reports `Name is required`. |
| Modal.AgeError | src/components/RegistrationModal.tsx:106-108 | There is no age error exactly when the age is present and in 1..120. |
| Modal.WhatsappError | src/components/RegistrationModal.tsx:110-114 | There is no number error exactly when the number is not blank and its digits form a mobile number. A blank number reports `WhatsApp number is required`. |
| Modal.EmailError | src/components/RegistrationModal.tsx:116-118 | There is an e-mail error exactly when a present, non-blank address does not have the shape of an address. |
| Modal.ChildrenError | src/components/RegistrationModal.tsx:120-125 | There is a children error exactly for SUPERMOM without a count in 1..20. |
| Modal.AssembleEntries | src/components/RegistrationModal.tsx:97-130 | The error map has an entry for a rule exactly when that rule failed, holding its message, and no other keys. |
| Modal.FormValidIff | src/components/RegistrationModal.tsx:97-130 | The form is valid exactly when all five rules pass. |
| Modal.FormStricterThanServer | src/components/RegistrationModal.tsx:97-131 | A body the form accepts is accepted by the register endpoint, with the same digits-only number. |
| Modal.ServerAcceptsWhatFormRefuses | src/app/api/register/route.ts:43-66 | A name the form refuses, `R2`, still passes the server's checks. |
| Modal.UploadError | src/components/RegistrationModal.tsx:60-79 | A file is usable exactly when it is within 5 MiB (photo) or 10 MiB (video) and of an allowed type. The size is checked first, with its own message. |
| Modal.KindsDoNotMix | src/components/RegistrationModal.tsx:61-63 | Every allowed video type is refused as a photo and every allowed image type as a video, whatever the size. A PNG within 5 MiB is accepted as a photo. |
| Modal.InitialFormErrors | src/components/RegistrationModal.tsx:11-21 | A fresh form keeps its contest and fails with the name, age and WhatsApp "required" errors, plus the children error exactly for SUPERMOM. |
| Modal.InitialForm | src/components/RegistrationModal.tsx:11-21 | A fresh form keeps the given contest, and the server would refuse it as missing required fields. |
| Modal.FormErrors | src/components/RegistrationModal.tsx:97-124 | Only the name, age, WhatsApp, e-mail and children fields can carry an error, and the children error arises only for SUPERMOM. |
| Modal.ContestButtons | src/components/RegistrationModal.tsx:232 | The buttons are every contest except NONE, in table order. |
| Modal.BuildErrors | src/components/RegistrationModal.tsx:98-125 | The error map is built rule by rule and is the map `validateForm` specifies. |
| Modal.RegistrationForm.constructor | src/components/RegistrationModal.tsx:11-24 | Starts as the fresh form under the provider's selected contest at mount time (NONE when none), with no errors and status idle. |
| Modal.PreselectAsWritten | src/components/RegistrationModal.tsx:10-21 | The form mounts before any contest button is pressed. After `openModal(contest)` the provider holds the contest but the form still shows NONE. |
| Modal.OpenForContest | src/contexts/RegistrationContext.tsx:19-22 | Opening the modal for a contest also sets the form's contest to it. Nothing else in the form changes. |
| Modal.PreselectCorrected | src/components/RegistrationModal.tsx:10-21 | With `OpenForContest`, the form shows the contest the button asked for. |
| Modal.RegistrationForm.HandleInputChange | src/components/RegistrationModal.tsx:29-50 | The name is filtered, age and children are parsed (empty clears them), other inputs are kept as typed. A non-empty error for that field becomes `''`. |
| Modal.RegistrationForm.HandleContestChange | src/components/RegistrationModal.tsx:52-54 | Only the contest changes. |
| Modal.RegistrationForm.HandleFileUpload | src/components/RegistrationModal.tsx:56-95 | No file does nothing. A refused file records its error under `photo` or `video` and leaves the form's URLs alone. An accepted file sets only its URL. |
| Modal.RegistrationForm.ValidateForm | src/components/RegistrationModal.tsx:97-131 | The installed errors are the form's error map, and the result is true exactly when the map is empty. |
| Modal.RegistrationForm.Submit | src/components/RegistrationModal.tsx:133-176 | An invalid form is not sent. A sent form is one the server accepts, and the status follows the answer. |
| Modal.RegistrationForm.FinishSuccess | src/components/RegistrationModal.tsx:153-167 | After success the form resets to NONE, the status goes idle and the modal closes. |
| Modal.RegistrationForm.ResetForm | src/components/RegistrationModal.tsx:178-192 | Every field returns to its default with contest NONE, the errors are cleared and the status goes idle. |

## Left out

- The database (`prisma.registration.create` / `findMany`) is a sequence of records. The store assigns `id` and `createdAt`, which are parameters. A store or connection failure (500) is not modelled. The only 500 modelled for the admin endpoint is the unknown contest.
- AdminApi.GetUnknownContest: assumes the `contest` column is a database enum, so an unknown key makes the query fail. The register endpoint writes `contest` through `as any`, so no type in the code enforces that.
- JSON body parsing and its failure (500) are not modelled. A missing `name` or `whatsapp` is the empty string, which the `!x` check treats the same way.
- These are I/O or foreign calls:
  - `fetch` to the webhook and from the pages;
  - the notification e-mail on the server and in the spreadsheet web app;
  - `console` logging;
  - the response envelopes beyond status and body.
  - The webhook becomes a list of payloads the route has sent.
- Spreadsheet formatting, `autoResizeColumns` and the web app's JSON reply are not modelled. Neither is its catch branch for unparsable bodies.
- `Date.now()`, `new Date()` and `toISOString()` are not modelled. Time is a `nat` parameter and ISO text is opaque.
- Concurrent requests on the shared rate-limit table are not modelled; requests are taken one at a time.
- `toLowerCase` and the letter class are ASCII only. Unicode case folding is not modelled.
- Text.ParseInt: decimal only. `parseInt` reads `0x10` as 16, but a number input never delivers it, since the browser clears that text to the empty string. Text such as `2.5` or `1e2` is read like `parseInt` reads it: the leading digits, giving 2 and 1.
- Modal.RegistrationForm.HandleFileUpload: does not model `URL.createObjectURL` throwing, or its catch branch. The object URL is a parameter.
- Modal.RegistrationForm.Submit: the fetch is its `responseOk` parameter, and a thrown fetch is the same as a failed answer. The `isSubmitting` flag and the 3-second delay are not modelled; the delayed step is `FinishSuccess`.
- Modal.RegistrationForm.HandleInputChange: the photo and video inputs are not text inputs and go through `HandleFileUpload`.
- Dashboard.AdminPage.Authenticate: the answer to the sign-in request is a parameter. A thrown fetch (`Authentication failed`) is not told apart from a refused one. `loading` and the `viewItem` detail view are not modelled.
- The export button's blob download is not modelled. `Dashboard.ExportMatchesView` covers the parameters it sends and the rows it gets back.
- AdminApi.CsvReadsBack: reads back only exports whose fields hold no `"` and no line feed. The code escapes neither, so other exports are ambiguous.
- The `useRegistration` guard, all JSX, animation and static pages are not modelled.

## Findings

| source | as written | input that shows it | evidently intended | confidence | as-written member | corrected member |
|---|---|---|---|---|---|---|
| src/components/RegistrationModal.tsx:16 | The form reads the provider's selected contest only in its `useState` initializer. The modal is mounted once, in the layout (src/app/layout.tsx:40), before any contest is chosen. | Press the SuperMom button: `openModal(SUPERMOM)` sets the provider's contest, while the form still shows NONE. | A contest button opens the form with that contest selected. | medium, not executed | Modal.PreselectAsWritten | Modal.PreselectCorrected |
