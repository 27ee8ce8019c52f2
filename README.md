# Job application tracker, modelled in Dafny

The tracker has two halves.

The server's router (`server/src/routes/jobRoutes.js`) defines four routes: `GET /` and `POST /`, and `PATCH /:id` and `DELETE /:id`. The client calls them under `/api/applications`. The router sits behind a bearer-token middleware and works on one PostgreSQL table, `job_applications`. The Express app in `server/server.js` does not mount the router: it registers only `/health`, `/` and the error handler. So as written, every `/api/applications` request gets Express's default 404. The model assumes a server that mounts the router at `/api/applications`, and every result about the routes and about client and server together holds only for such a server.

The client is a Next.js app with:
- a signup validator;
- a provider that caches the signed-in user's applications;
- a thin API service;
- a stats grid, a job form, an auth screen and a route guard;
- an older all-in-one dashboard page that calls `fetch` itself.

The model follows both halves file by file:

- **Schema** (migration): the row type, the NOT NULL and CHECK constraints of an INSERT, the `updated_at` trigger and the cascade from deleted users.
- **JobController**: the four handlers.
  - They run on a `JobStore` object whose `rows` they replace, and they are specified through pure functions: `NewJobRow`, `SelectJobs`, `FindOwned`, `MergeRow` and `RemoveOwned`.
  - The properties are proved about those functions: owner scoping, the status and search filters, newest-first order, the COALESCE merge, not-found answers and isolation between users.
  - `getJobs` builds its `WHERE` clause step by step, like the source. `BuildQuery` proves that the clause it builds means `Matches`. The placeholders are numbered as the handler numbers them ($1 the caller, then $2 and $3), and each is bound to its parameter.
- **Ilike**: the `ILIKE` patterns `getJobs` uses, with `%` and `_`, over ASCII case folding.
- **AuthMiddleware** and **JobRoutes**:
  - the header parse and the 401 decisions;
  - the validator chain and its two `.trim()` sanitizers;
  - the router, which runs `requireAuth` first and then the verb's handler. PATCH reaches `updateJob` whatever its field errors are.
- **ClientTypes**: `JobApplication`, `JobStatus` and the six-string job form.
- **SignupValidation**: the two regular expressions, written as character predicates, and `validateSignup`.
- **ApiService** and **ApplicationsService**: the request each call sends and how a reply is read.
- **ApplicationsContext**: the provider's state machine.
  - Its state is `jobs`, `loading`, `error`, `loadedRef` and `sessionTokenRef`.
  - Pure transition functions define it, and an `ApplicationsProvider` object performs it step by step.
- **StatsGrid**, **JobFormModal**, **AuthScreen**, **ProtectedRoute** and **DashboardPage**: the UI state machines. Each is a class with the component's state as fields, specified through functions over a state value.
- **EndToEnd**: what client and server do together:
  - the credential each client sends and what the middleware makes of it;
  - what saving an unchanged edit form does to the stored row;
  - the dashboard counts under a status filter.

## Parameters and assumptions

Everything outside the code is a parameter:
- the Supabase user lookup (`getUser`) and the sign-in/sign-up outcome;
- express-validator's `isURL` (`isUrl`) and the browser's URL check;
- PostgreSQL's date and integer input (`isDate`, `integerInput`), and its clock (`now`);
- the replies of `fetch` and `JSON.parse`;
- the date conversion of the edit form (`toDateInput`);
- `NEXT_PUBLIC_API_URL` (`env`).

Each handler runs to its end before the next one starts.

## Behaviour worth knowing

The proofs bring out some behaviour of the code as written:

- **The submitted status is always used.** A POST without a status fails the chain (`isIn` sees ""). So `createJob`'s "Applied" fallback is never used through the route (`JobRoutes.ValidatedStatusIsPresent`).
- **PATCH is not validated, but it is sanitized.** The chain's `.trim()` runs on every PATCH. It turns a missing or null company or role into `""` and writes that back, and `COALESCE` keeps `""`. So a PATCH that leaves out company and role blanks both columns (`JobRoutes.RoutePatchBlanksCompanyAndRole`). For the other fields (status, applied date, notes, job link), an absent field keeps the column and an empty string overwrites it:
  - an empty status violates the CHECK and becomes a 500 (`JobController.EmptyStatusPatchFails`);
  - an empty date is not date input (`JobController.EmptyDatePatchFails`).
- **A blank company passes.** `notEmpty` runs before `trim`. So a company of spaces passes the chain, and a successful create then stores `""` (`JobRoutes.BlankCompanyIsStoredEmpty`). The same holds for the role.
- **Saving an undated job fails.** The edit forms send every field as a string. Saving the form of a job with no applied date sends `""` for the date, so the update fails (`EndToEnd.EditingUndatedJobFails`). Saving a dated one turns null notes and links into `""` (`EndToEnd.UnchangedEditNormalises`).
- **`_` in a search term is a wildcard.** The term is not escaped (`Ilike.UnderscoreIsWildcard`).
- **The scheme word is not checked.** The middleware takes the second space-separated field of the header (`AuthMiddleware.SchemeNotChecked`). The dashboard page sends `Bearer undefined` when there is no session (`EndToEnd.PageWithoutSessionAsksAboutUndefined`).
- **Failed loads.** When the first load for a new session fails, the previous user's jobs stay listed beside the error (`ApplicationsContext.FailedSwitchKeepsPreviousJobs`). Signing out does not clear `error`.
- **A rejected save leaves the form busy.** `JobFormModal`'s `handleSubmit` has no `finally`, so a rejected `onSave` leaves `submitting` true.
- **The empty-list add button edits the old job.** On the dashboard page, that button only opens the modal. After an edit was closed with the close button, it reopens that job for editing, even after the job was deleted (`DashboardPage.EmptyListButtonKeepsEditedJob`).

## Model

| member | source | states |
|---|---|---|
| Schema.ParseStatus | server/migrations/1768636203421_create-job-applications-table.js:12-17 | a text passes the status CHECK iff it is one of the four values, and the status read back has that text |
| Schema.StatusRoundTrip | server/migrations/1768636203421_create-job-applications-table.js:16 | every status survives being stored as text and read back |
| Schema.InsertRow | server/migrations/1768636203421_create-job-applications-table.js:4-30 | an INSERT succeeds iff company, role and status are non-null, the status passes the CHECK and a given date is date input; the stored row has exactly the given values and both timestamps set to the clock |
| Schema.BeforeUpdate | server/migrations/1768636203421_create-job-applications-table.js:35-47 | the trigger sets `updated_at` to the clock and changes nothing else |
| Schema.CascadeDeleteUser | server/migrations/1768636203421_create-job-applications-table.js:4-9 | after the cascade, a row remains iff it was there and belongs to another user |
| Schema.CascadeRemovesUser | server/migrations/1768636203421_create-job-applications-table.js:8 | the deleted user owns no row afterwards |
| Schema.CascadeKeepsOtherUsers | server/migrations/1768636203421_create-job-applications-table.js:8 | every other user's rows are unchanged, in order |
| AuthMiddleware.RequireAuth | server/src/middleware/authMiddleware.js:3-32 | either next is called once with req.user set and nothing is sent, or a 401 is sent and next is not called; no header gives "No authorization header provided"; a missing or empty second field gives "Malformed authorization header"; otherwise the provider is asked about exactly that token, and next runs iff it returns a user without error, else "Unauthorized request" |
| AuthMiddleware.TokenOf | server/src/middleware/authMiddleware.js:10 | `split(" ")[1]`: the second space-separated field, absent when the header has no space |
| AuthMiddleware.TokenAfterScheme | server/src/middleware/authMiddleware.js:10 | the token of "scheme token" is the token |
| AuthMiddleware.TokenEndsAtSpace | server/src/middleware/authMiddleware.js:10 | the token stops at the next space, and later fields are ignored |
| AuthMiddleware.NoSpaceNoToken | server/src/middleware/authMiddleware.js:10-14 | a header without a space has no token |
| AuthMiddleware.SchemeNotChecked | server/src/middleware/authMiddleware.js:10-20 | two headers that differ only in the scheme word get the same outcome |
| AuthMiddleware.BearerWithoutToken | server/src/middleware/authMiddleware.js:12-14 | "Bearer" and "Bearer " are rejected as malformed, before any lookup |
| JobRoutes.JobValidation | server/src/routes/jobRoutes.js:7-17 | each of the four messages is reported iff its rule fails: empty company, empty role, a status outside the four values, or a truthy link that is not a URL; nothing else is reported; the errors come in chain order |
| JobRoutes.ValidationCount | server/src/routes/jobRoutes.js:7-17 | there are at most four errors, and none iff every rule passes |
| JobRoutes.ValidatedStatusIsPresent | server/src/routes/jobRoutes.js:10-12 | a body that passes the chain carries one of the four statuses |
| Strings.Trim | server/src/routes/jobRoutes.js:8-9 | the result is the contiguous part of the input left after removing white space from both ends: everything removed is white space, and the result neither starts nor ends with it |
| Strings.TrimIdempotent | server/src/routes/jobRoutes.js:8-9 | trimming twice is trimming once |
| Strings.BlankTrimsEmpty | server/src/routes/jobRoutes.js:8-9 | a string of white space trims to "" |
| JobRoutes.Sanitized | server/src/routes/jobRoutes.js:8-9 | the handler receives company and role as the trimmed string, with a missing or null value read as ""; the other fields are unchanged |
| JobRoutes.SanitizeIdempotent | server/src/routes/jobRoutes.js:8-9 | sanitizing an already sanitized body changes nothing |
| JobRoutes.BlankCompanyIsStoredEmpty | server/src/routes/jobRoutes.js:8 | a company of white space passes the notEmpty rule, and a successful create stores it as "" |
| JobRoutes.RoutePatchBlanksCompanyAndRole | server/src/routes/jobRoutes.js:8-9 | through the route, an empty PATCH or a notes-only PATCH sets company and role to "" besides its own changes |
| JobRoutes.ValidatedBodyInserts | server/src/controllers/jobController.js:21-31 | a body that passes the chain and has valid date input is inserted, after sanitizing, with its company and role trimmed and its status |
| JobRoutes.StatusRuleIsExact | server/src/routes/jobRoutes.js:10-12 | the status rule passes iff the status is exactly one of the four values |
| JobRoutes.RouteErrors | server/src/routes/jobRoutes.js:21-24 | GET and DELETE have no field rules; POST and PATCH run the whole chain |
| JobRoutes.Handle | server/src/routes/jobRoutes.js:19-24 | requireAuth runs first, and a rejected request changes nothing; an accepted one can change only the caller's rows; only a POST can advance the id sequence; GET changes nothing and answers the selected list; a POST with field errors gets 400; a valid POST appends NewJobRow's row and answers 201, or answers the generic 500 with no change when the insert fails; PATCH goes to the update whatever its errors; a path id that is not an integer gives the generic 500; POST and PATCH hand the handler the sanitized body |
| JobController.NewJobRow | server/src/controllers/jobController.js:10-31 | the insert succeeds iff company and role are present, a truthy status is valid and a truthy date is date input; the row belongs to the caller, has the given company and role, has a falsy status replaced by "Applied", and has a falsy date, notes or link stored as null |
| JobController.InsertKeepsOthers | server/src/controllers/jobController.js:11-31 | creating a row for the caller leaves every other user's rows unchanged |
| JobController.BuildQuery | server/src/controllers/jobController.js:44-61 | the built clause starts with the owner test on $1 bound to the caller; a status adds the test on $2 bound to it; a search adds the ILIKE test on the last placeholder ($2, or $3 after a status) bound to `%term%`; there are as many terms as parameters; a row satisfies the clause iff it matches owner, status and search |
| JobController.InsertNewestFirst | server/src/controllers/jobController.js:63 | inserting into a newest-first list keeps it newest first and adds exactly that row |
| JobController.SortNewestFirst | server/src/controllers/jobController.js:63 | the result is ordered by created_at, non-increasing, and is a permutation of the input |
| JobController.SelectJobs | server/src/controllers/jobController.js:44-66 | the list is newest first and holds exactly the matching rows, each as often as in the table |
| JobController.ListedIffMatches | server/src/controllers/jobController.js:44-61 | a row is listed iff it is in the table and matches owner, status and search |
| JobController.ListsOnlyOwnRows | server/src/controllers/jobController.js:44-48 | whatever the parameters, every listed row belongs to the caller |
| JobController.UnfilteredListIsOwnRows | server/src/controllers/jobController.js:44-48 | without filters, the list is a permutation of the caller's rows |
| JobController.StatusFilterIsExact | server/src/controllers/jobController.js:51-55 | with a non-empty status, the listed rows are exactly the caller's rows with that status |
| JobController.UnknownStatusListsNothing | server/src/controllers/jobController.js:51-55 | a status outside the four values lists nothing |
| JobController.SearchIsCaseInsensitiveSubstring | server/src/controllers/jobController.js:57-61 | with a term free of wildcards, the listed rows are the caller's rows whose company or role contains the term, ignoring ASCII case |
| JobController.ListIgnoresOtherUsers | server/src/controllers/jobController.js:44-48 | adding another user's row does not change the caller's list |
| JobController.FindOwned | server/src/controllers/jobController.js:78-85 | the found index holds a row with that id owned by the caller; none is found iff no row has that id and owner |
| JobController.OnlyTarget | server/src/controllers/jobController.js:96 | with unique ids, the found row is the only one the `WHERE id AND user_id` touches |
| JobController.MergeRow | server/src/controllers/jobController.js:87-111 | the UPDATE succeeds iff a supplied date is date input and a supplied status is valid; each column takes the supplied value when there is one (an empty string counts) and otherwise keeps its value; id, owner and created_at are kept; updated_at is the clock |
| JobController.EmptyPatchTouchesOnlyTimestamp | server/src/controllers/jobController.js:87-98 | at the handler, a body with no fields changes only updated_at (through the route the sanitizers add company and role; see JobRoutes.RoutePatchBlanksCompanyAndRole) |
| JobController.NotesOnlyPatch | server/src/controllers/jobController.js:93 | at the handler, a notes-only body changes only the notes and updated_at |
| JobController.PatchIdempotent | server/src/controllers/jobController.js:87-111 | a second identical PATCH changes nothing but updated_at |
| JobController.EmptyStatusPatchFails | server/src/controllers/jobController.js:91 | an empty status is supplied and violates the CHECK |
| JobController.EmptyDatePatchFails | server/src/controllers/jobController.js:92 | an empty date is supplied and is rejected as date input |
| JobController.UpdateKeepsOthers | server/src/controllers/jobController.js:96 | updating a row of the caller leaves every other user's rows unchanged |
| JobController.RemoveOwned | server/src/controllers/jobController.js:123-126 | a row remains iff it was there and is not the caller's row with that id |
| JobController.RemoveOwnedIsSplice | server/src/controllers/jobController.js:123-126 | when exactly one row is the target, deleting removes that row and keeps the rest in order |
| JobController.SecondDeleteNotFound | server/src/controllers/jobController.js:128-130 | after a delete the same id is not found, so a second delete gives 404 |
| JobController.DeletedRowNotListed | server/src/controllers/jobController.js:123-126 | a deleted id is never listed again |
| JobController.RemoveKeepsOthers | server/src/controllers/jobController.js:123-126 | deleting leaves every other user's rows unchanged |
| JobController.CreateListDeleteRoundTrip | server/src/controllers/jobController.js:14-33 | a created row is listed for its owner exactly as stored; deleting it removes only it; afterwards it is no longer listed |
| JobController.JobStore.constructor | server/migrations/1768636203421_create-job-applications-table.js:2-31 | the table starts empty with the id sequence at 1 |
| JobController.JobStore.CreateJob | server/src/controllers/jobController.js:4-37 | field errors give 400 with the list and no change; otherwise the row from NewJobRow is appended with the next id and answered 201, or a failed insert gives 500 and no change; ids stay unique |
| JobController.JobStore.GetJobs | server/src/controllers/jobController.js:39-70 | answers 200 with SelectJobs of the table |
| JobController.JobStore.UpdateJob | server/src/controllers/jobController.js:72-116 | no owned row with that id gives 404 and no change; otherwise that row alone is replaced by the merge and answered 200, or a failed merge gives 500 and no change |
| JobController.JobStore.DeleteJob | server/src/controllers/jobController.js:118-136 | the table becomes RemoveOwned of itself; 404 and no change iff nothing matched, else 200 "Job application deleted successfully" and that one row is spliced out |
| JobController.JobStore.DeleteUser | server/migrations/1768636203421_create-job-applications-table.js:4-9 | deleting a user cascades to exactly their rows |
| Ilike.Like | server/src/controllers/jobController.js:58 | LIKE: `%` matches any run of characters, `_` any one character, every other character itself |
| Ilike.ILike | server/src/controllers/jobController.js:58 | ILIKE is LIKE on the lower-cased text and pattern |
| Ilike.SearchPattern | server/src/controllers/jobController.js:59 | the pattern is the term between two % |
| Ilike.LikeContains | server/src/controllers/jobController.js:59 | "%t%" matches exactly the texts containing t, for a term t without wildcards |
| Ilike.ILikeContains | server/src/controllers/jobController.js:58-59 | the search matches exactly the texts that contain the term, ignoring ASCII case |
| Ilike.UnderscoreIsWildcard | server/src/controllers/jobController.js:59 | an unescaped `_` matches any character: "a_c" finds "abc", which does not contain it |
| ClientTypes.JobOf | client/src/types/index.ts:1-10 | the client's view of a row: its id, company, role, status, applied date, notes and link as stored, and created_at as rendered |
| ClientTypes.ParseJobStatus | client/src/types/index.ts:12 | a text names a JobStatus iff it is "All" or one of the four statuses, and the JobStatus read back has that text |
| ClientTypes.JobStatusRoundTrip | client/src/types/index.ts:12 | every JobStatus reads back from its text |
| ClientTypes.JobStatusTextInjective | client/src/types/index.ts:12 | different filters have different texts |
| ClientTypes.StatusOrderListsEachOnce | client/src/components/dashboard/StatsGrid.tsx:14 | the display order lists every status exactly once |
| ClientTypes.FormFromJob | client/src/components/modals/JobFormModal.tsx:26-36 | the edit form copies company and role, and its status reads back as the job's; notes and link are "" exactly when falsy and otherwise copied; a falsy date is "", a truthy one is shown through the date conversion |
| ClientTypes.FormForgetsNull | client/src/components/modals/JobFormModal.tsx:31-35 | a null and an empty notes, link or date give the same form |
| SignupValidation.IsEmail | client/src/utils/validation.ts:12 | the email pattern read by positions: no white space, exactly one "@" not at the start, and a "." after it with characters on both sides and at the end |
| SignupValidation.IsEmailIffShape | client/src/utils/validation.ts:12 | the positional email test accepts exactly local@domain.tld with three non-empty parts free of white space and "@" |
| SignupValidation.PositionsGiveShape | client/src/utils/validation.ts:12 | an accepted email splits into the three parts |
| SignupValidation.ShapeGivesPositions | client/src/utils/validation.ts:12 | three such parts joined by "@" and "." are accepted |
| SignupValidation.IsStrongPassword | client/src/utils/validation.ts:1-2 | PASSWORD_REGEX: at least 8 characters, all letters, digits, spaces or listed symbols, with a lower-case letter, an upper-case letter, a digit and a listed symbol among them |
| SignupValidation.ValidateSignup | client/src/utils/validation.ts:4-35 | each message is present iff its check fails: empty or malformed email, length under 8, PASSWORD_REGEX failing, or a given confirmation that differs; only these four appear, in check order, at most 4, and the list is empty iff every check passes |
| SignupValidation.ShortPasswordIsWeak | client/src/utils/validation.ts:18-27 | a password shorter than 8 also fails the complexity pattern, so it draws both messages |
| SignupValidation.EmptyEmailIsInvalid | client/src/utils/validation.ts:13 | the empty email fails the pattern |
| SignupValidation.SampleEmails | client/src/utils/validation.ts:12 | "jo@example.com" is accepted; a missing dot, a space or two "@" are rejected |
| SignupValidation.StrongSample | client/src/utils/validation.ts:1-2 | "Str0ng!Pass" satisfies PASSWORD_REGEX |
| SignupValidation.WeakSamples | client/src/utils/validation.ts:1-2 | "password" (no upper case) and "Password1" (no symbol) fail it |
| ApiService.ApiUrl | client/src/services/api.service.ts:1 | the configured URL when it is truthy, else "http://localhost:8080" |
| ApiService.GetHeaders | client/src/services/api.service.ts:4-12 | Content-Type is always application/json; Authorization is present iff the token is non-empty, and is then "Bearer " + token; there are no other headers |
| ApiService.Request | client/src/services/api.service.ts:14-25 | the URL is the base followed by the endpoint; method, body and headers are as given |
| ApiService.Get | client/src/services/api.service.ts:36-38 | a GET request without a body |
| ApiService.Post | client/src/services/api.service.ts:40-42 | a POST request with the given body |
| ApiService.Patch | client/src/services/api.service.ts:44-46 | a PATCH request with the given body |
| ApiService.Delete | client/src/services/api.service.ts:48-50 | a DELETE request without a body |
| ApiService.Delegations | client/src/services/api.service.ts:36-50 | get and delete send no body; post and patch send theirs; each names its own method; all send the JSON content type |
| ApiService.Classify | client/src/services/api.service.ts:27-33 | a rejected fetch propagates; a non-ok response fails with "API Error: " + statusText; an ok empty body is null; otherwise the parse's result |
| ApiService.ServerMessageIgnored | client/src/services/api.service.ts:27-29 | the body of an error response never affects the outcome |
| ApiService.EmptySuccessIsNull | client/src/services/api.service.ts:32-33 | an ok response with an empty body yields null |
| ApplicationsService.ItemPath | client/src/services/applications.service.ts:11-15 | an item path extends "/api/applications/" |
| ApplicationsService.Endpoint | client/src/services/applications.service.ts:5-15 | the collection is addressed iff the call is getAll or create; update and delete address the item |
| ApplicationsService.ToRequest | client/src/services/applications.service.ts:5-15 | GET and POST go to the collection and PATCH and DELETE to the item; the form is the body only for POST and PATCH |
| ApplicationsService.ItemPathInjective | client/src/services/applications.service.ts:11-15 | different ids give different paths |
| ApplicationsService.CollectionIsNotAnItem | client/src/services/applications.service.ts:5-6 | the list path is no item's path and has no query string |
| ApplicationsService.CallsCarryToken | client/src/services/applications.service.ts:5-15 | every call sends "Bearer " + its token |
| ApplicationsContext.Fetch | client/src/context/ApplicationsContext.tsx:42-65 | loaded and not forced: no change; success: jobs become the data (null as []), loaded is set, error cleared; failure: jobs and loaded kept, error "Failed to load applications"; silent fetches keep `loading`, others end with it false |
| ApplicationsContext.LoadedFetchIsNoop | client/src/context/ApplicationsContext.tsx:49-56 | after a successful fetch, an unforced fetch changes nothing |
| ApplicationsContext.FailedLoadIsRetried | client/src/context/ApplicationsContext.tsx:49-59 | after a failed first load, the next unforced fetch runs |
| ApplicationsContext.AfterSessionChange | client/src/context/ApplicationsContext.tsx:67-82 | a new token resets loaded and is recorded; the same token changes nothing; no session clears the jobs and resets loaded and the token |
| ApplicationsContext.SessionEffect | client/src/context/ApplicationsContext.tsx:67-82 | it fetches iff there is a session and the token is new or the jobs are not loaded; with a session the token is recorded, and without a fetch nothing else changes; a successful fetch leaves the data loaded with no error and loading false; a failed one keeps the jobs and records the error; no session clears the jobs and resets loaded and the token |
| ApplicationsContext.NewTokenFetches | client/src/context/ApplicationsContext.tsx:68-76 | a new token always starts a fetch |
| ApplicationsContext.SameTokenIsQuiet | client/src/context/ApplicationsContext.tsx:68-76 | the same token with jobs loaded starts nothing and changes nothing |
| ApplicationsContext.SignInLoadsOnce | client/src/context/ApplicationsContext.tsx:67-82 | re-running the effect after a successful load does not fetch again |
| ApplicationsContext.SignOutClears | client/src/context/ApplicationsContext.tsx:77-81 | signing out empties the jobs and resets loaded and the token, keeping error and loading |
| ApplicationsContext.FailedSwitchKeepsPreviousJobs | client/src/context/ApplicationsContext.tsx:67-82 | when a new token's first load fails, the old jobs stay and the error is set |
| ApplicationsContext.Refresh | client/src/context/ApplicationsContext.tsx:84-87 | without a session nothing changes; otherwise a forced silent fetch, which never changes `loading` |
| ApplicationsContext.SaveThenRefresh | client/src/context/ApplicationsContext.tsx:89-109 | an error is rethrown iff there is a session and the service call failed; then it is the service's message and the state is unchanged; otherwise the state is the refresh's |
| ApplicationsContext.DeleteStep | client/src/context/ApplicationsContext.tsx:111-120 | no session: no change; failure: no change and the error is rethrown; success: the jobs with that id are filtered out in order, and there is no refetch |
| ApplicationsContext.DeleteKeepsExactlyOthers | client/src/context/ApplicationsContext.tsx:115 | after a successful delete, a job remains iff it was there with another id |
| ApplicationsContext.DeleteTwiceIsOnce | client/src/context/ApplicationsContext.tsx:115 | deleting the same id twice equals deleting it once |
| ApplicationsContext.ApplicationsProvider.constructor | client/src/context/ApplicationsContext.tsx:35-40 | no jobs, not loading, no error, not loaded, no token |
| ApplicationsContext.ApplicationsProvider.FetchJobs | client/src/context/ApplicationsContext.tsx:42-65 | the new state is Fetch of the old one; getAll is called iff the fetch is not skipped |
| ApplicationsContext.ApplicationsProvider.OnSession | client/src/context/ApplicationsContext.tsx:67-82 | the new state is the session effect's; getAll with the token is called iff the effect fetches |
| ApplicationsContext.ApplicationsProvider.RefreshJobs | client/src/context/ApplicationsContext.tsx:84-87 | the new state is Refresh's; getAll is called iff there is a session |
| ApplicationsContext.ApplicationsProvider.AddJob | client/src/context/ApplicationsContext.tsx:89-98 | state and rethrown error as SaveThenRefresh; create is called with the token, followed by getAll only when it resolved |
| ApplicationsContext.ApplicationsProvider.UpdateJob | client/src/context/ApplicationsContext.tsx:100-109 | the same, for update with the id |
| ApplicationsContext.ApplicationsProvider.SaveAndRefresh | client/src/context/ApplicationsContext.tsx:89-109 | the shared body: the call, then the refresh only on success |
| ApplicationsContext.ApplicationsProvider.DeleteJob | client/src/context/ApplicationsContext.tsx:111-120 | state and error as DeleteStep; delete is called iff there is a session |
| StatsGrid.Count | client/src/components/dashboard/StatsGrid.tsx:20 | the count is at most the number of jobs, and zero iff no job has that status |
| StatsGrid.CountsSumToTotal | client/src/components/dashboard/StatsGrid.tsx:14-20 | the four counts add up to the number of jobs |
| StatsGrid.Cards | client/src/components/dashboard/StatsGrid.tsx:14-20 | four cards in display order, each with its status's count, selected iff the filter equals its status |
| StatsGrid.AtMostOneSelected | client/src/components/dashboard/StatsGrid.tsx:19 | no two cards are selected; some card is selected iff the filter names a status |
| StatsGrid.Clicked | client/src/components/dashboard/StatsGrid.tsx:54 | a click sets "All" iff the card was selected, otherwise its status |
| StatsGrid.ClickTwiceRestores | client/src/components/dashboard/StatsGrid.tsx:54 | two clicks on a card restore "All" or that card's status |
| StatsGrid.ClickTwiceFromOtherStatus | client/src/components/dashboard/StatsGrid.tsx:54 | from another status, the first click selects the card and the second resets to "All" |
| JobFormModal.InitialForm | client/src/components/modals/JobFormModal.tsx:25-46 | a new form is the blank one; an edit form is the job's form |
| JobFormModal.BlankFormIsEmpty | client/src/components/modals/JobFormModal.tsx:38-45 | the blank form has no content and cannot be submitted, since company and role are required |
| JobFormModal.EditFormClosesAtOnce | client/src/components/modals/JobFormModal.tsx:57-63 | closing an edit form never asks |
| JobFormModal.WhatMakesClosingAsk | client/src/components/modals/JobFormModal.tsx:58-59 | from an empty form, closing asks after one input iff that input filled the company or the role |
| JobFormModal.FormModal.constructor | client/src/components/modals/JobFormModal.tsx:18-48 | the initial form, not submitting, no prompt |
| JobFormModal.FormModal.Edit | client/src/components/modals/JobFormModal.tsx:94-176 | an input changes only its field |
| JobFormModal.FormModal.Submit | client/src/components/modals/JobFormModal.tsx:50-55 | onSave gets the form iff it is not busy, the prompt is hidden and the browser accepts the inputs; `submitting` returns to false only when onSave resolves |
| JobFormModal.FormModal.Close | client/src/components/modals/JobFormModal.tsx:57-64 | onClose is called iff the form is not a new one with company or role; otherwise the prompt opens |
| JobFormModal.FormModal.KeepEditing | client/src/components/modals/JobFormModal.tsx:216 | hides the prompt and keeps the form |
| JobFormModal.FormModal.Discard | client/src/components/modals/JobFormModal.tsx:222 | calls onClose while the prompt is shown |
| AuthScreen.ParamEffect | client/src/components/auth/AuthScreen.tsx:15-20 | only "login" and "signup" change the view |
| AuthScreen.AuthCall | client/src/components/auth/AuthScreen.tsx:27-43 | no provider call iff signing up with a different confirmation; otherwise sign-in in the login view and sign-up in the signup view, with the typed email and password |
| AuthScreen.FailureMessage | client/src/components/auth/AuthScreen.tsx:44-47 | no message on success; the error's message; "An unknown error occurred" for a thrown non-Error |
| AuthScreen.AfterAuth | client/src/components/auth/AuthScreen.tsx:22-51 | loading ends false; only the error changes; a mismatch gives "Passwords do not match", otherwise the provider's failure message |
| AuthScreen.LoginIgnoresConfirm | client/src/components/auth/AuthScreen.tsx:27 | in the login view the confirmation affects neither the call nor the result |
| AuthScreen.OutcomeMattersOnlyAfterCall | client/src/components/auth/AuthScreen.tsx:27-47 | a mismatch ignores the provider; the error is cleared iff a call was made and succeeded |
| AuthScreen.Toggle | client/src/components/auth/AuthScreen.tsx:150-153 | the view flips and the error is cleared; nothing else changes |
| AuthScreen.ToggleTwice | client/src/components/auth/AuthScreen.tsx:150-153 | toggling twice returns to the same view, without the error |
| AuthScreen.Screen.constructor | client/src/components/auth/AuthScreen.tsx:8-13 | login view, empty inputs, not loading, no error |
| AuthScreen.Screen.OnParam | client/src/components/auth/AuthScreen.tsx:15-20 | the new state is ParamEffect's |
| AuthScreen.Screen.Type | client/src/components/auth/AuthScreen.tsx:96-124 | an input changes only its field |
| AuthScreen.Screen.HandleAuth | client/src/components/auth/AuthScreen.tsx:22-51 | makes AuthCall's call and ends in AfterAuth's state |
| AuthScreen.Screen.ToggleView | client/src/components/auth/AuthScreen.tsx:150-153 | the new state is Toggle's |
| ProtectedRoute.Render | client/src/components/ProtectedRoute.tsx:27-39 | the spinner shows iff not mounted or loading; the children show iff mounted, settled and signed in; nothing shows iff mounted, settled and signed out |
| ProtectedRoute.Redirect | client/src/components/ProtectedRoute.tsx:21-25 | it pushes "/?auth=login" iff auth has settled with no user |
| ProtectedRoute.ChildrenOnlyWithoutRedirect | client/src/components/ProtectedRoute.tsx:21-39 | the children never show during a redirect, and the empty screen shows only during one |
| ProtectedRoute.FirstRenderIsSpinner | client/src/components/ProtectedRoute.tsx:14-33 | before mounting, only the spinner shows |
| ProtectedRoute.EffectPush | client/src/components/ProtectedRoute.tsx:21-25 | the redirect effect pushes "/?auth=login" iff its dependencies changed since its last run (or it has not run) and auth has settled with no user |
| ProtectedRoute.RepeatedPassIsQuiet | client/src/components/ProtectedRoute.tsx:21-25 | a re-render with the same loading and user pushes nothing |
| ProtectedRoute.MountPushesIfSignedOut | client/src/components/ProtectedRoute.tsx:21-25 | on mount the effect pushes exactly as Redirect says |
| ProtectedRoute.SignOutPushes | client/src/components/ProtectedRoute.tsx:21-25 | losing the user after a signed-in pass pushes once, and the next pass with no user pushes nothing |
| ProtectedRoute.Guard.constructor | client/src/components/ProtectedRoute.tsx:14 | not mounted, and the redirect effect has not run |
| ProtectedRoute.Guard.RenderPass | client/src/components/ProtectedRoute.tsx:14-39 | the screen is rendered with the old mounted flag; the push is EffectPush of the dependencies the effect last ran with; afterwards it is mounted and remembers this pass's dependencies |
| DashboardPage.BearerOf | client/src/app/page.tsx:64 | "Bearer " + token with a session; "Bearer undefined" without |
| DashboardPage.ListUrl | client/src/app/page.tsx:56-61 | the collection URL, with "?status=" + filter iff the filter is not "All" |
| DashboardPage.ListUrlInjective | client/src/app/page.tsx:56-61 | different filters give different URLs |
| DashboardPage.ListRequest | client/src/app/page.tsx:56-67 | a GET of the list URL whose only header is Authorization |
| DashboardPage.SaveRequest | client/src/app/page.tsx:98-115 | PATCH on the edited job's URL, or POST on the collection; the form is the body; JSON content type and bearer |
| DashboardPage.DeleteRequest | client/src/app/page.tsx:141-151 | DELETE on the job's URL, with no body |
| DashboardPage.RequestsAgreeWithService | client/src/app/page.tsx:98-151 | with a session, the save equals the service's create or update request; list and delete differ from the service's only in the missing content type |
| DashboardPage.PageFetch | client/src/app/page.tsx:53-77 | jobs are replaced only by an ok, parsed body; loading ends false even after a rejection; nothing else changes |
| DashboardPage.FetchEffect | client/src/app/page.tsx:79-85 | with a session the page fetches; without one it only stops loading |
| DashboardPage.AfterSave | client/src/app/page.tsx:117-134 | submitting ends false; an ok response closes the modal, clears the edited job and resets the form to the defaults; anything else changes nothing more |
| DashboardPage.AfterDelete | client/src/app/page.tsx:137-159 | without confirmation, or without an ok response, nothing changes; otherwise the jobs with that id go, in order |
| DashboardPage.DeleteLeavesOthers | client/src/app/page.tsx:154 | after a successful delete, a job remains iff it was there with another id |
| DashboardPage.OpenEdit | client/src/app/page.tsx:161-174 | records the job as edited, fills the form from it and opens the modal |
| DashboardPage.OpenAdd | client/src/app/page.tsx:411-421 | forgets the edited job, resets the form to the defaults and opens the modal |
| DashboardPage.SetModalOpen | client/src/app/page.tsx:671 | sets only whether the modal is open (the close button here, the empty list's button at line 549) |
| DashboardPage.ClearAuthInputs | client/src/app/page.tsx:87-92 | the second session effect: empties the three auth inputs and the auth error |
| DashboardPage.EditSubmitsPatch | client/src/app/page.tsx:161-174 | after opening the edit modal, a submit PATCHes that job's URL with its form |
| DashboardPage.AddSubmitsPost | client/src/app/page.tsx:411-421 | after the add button, the form is blank and a submit POSTs to the collection |
| DashboardPage.EmptyListButtonKeepsEditedJob | client/src/app/page.tsx:549 | close an edit, delete that job, then press the empty list's add button: the modal reopens in edit mode for the deleted job |
| DashboardPage.StatCounts | client/src/app/page.tsx:444-454 | four counts in display order, equal to the stats grid's counts |
| DashboardPage.StatCountsSum | client/src/app/page.tsx:444-454 | the counts add up to the number of listed jobs |
| DashboardPage.FilteredCountsCollapse | client/src/app/page.tsx:444-454 | when every listed job has one status, that count is the list's length and the others are zero |
| DashboardPage.Dashboard.constructor | client/src/app/page.tsx:30-51 | no jobs, loading, filter "All", modal closed with the blank form, auth form initial |
| DashboardPage.Dashboard.FetchJobs | client/src/app/page.tsx:53-77 | sends ListRequest for the current filter and ends in PageFetch's state |
| DashboardPage.Dashboard.OnSession | client/src/app/page.tsx:79-92 | both session effects: fetch or stop loading, then clear the auth inputs and error |
| DashboardPage.Dashboard.SetFilter | client/src/app/page.tsx:398-399 | sets the filter, then the fetch effect requests the list for the new filter |
| DashboardPage.Dashboard.HandleSubmit | client/src/app/page.tsx:94-135 | sends SaveRequest; on ok, AfterSave's reset followed by a refetch with the current filter; otherwise only submitting goes back to false |
| DashboardPage.Dashboard.HandleDelete | client/src/app/page.tsx:137-159 | a request is sent iff confirmed; the state is AfterDelete's |
| DashboardPage.Dashboard.OpenEditModal | client/src/app/page.tsx:161-174 | records the job, fills the form from it and opens the modal |
| DashboardPage.Dashboard.OpenAddModal | client/src/app/page.tsx:411-421 | forgets the edited job, resets the form and opens the modal |
| DashboardPage.Dashboard.SetModal | client/src/app/page.tsx:671 | only opens or closes the modal |
| DashboardPage.Dashboard.Edit | client/src/app/page.tsx:700-783 | an input changes only its field |
| DashboardPage.Dashboard.HandleAuth | client/src/app/page.tsx:176-210 | the auth screen's handler on the page's auth state: the same call and the same result |
| DashboardPage.Dashboard.ToggleAuthView | client/src/app/page.tsx:367-370 | the auth screen's toggle |
| EndToEnd.ServiceTokenReachesLookup | client/src/services/api.service.ts:8-10 | the service's bearer header makes the middleware ask the provider about exactly the token |
| EndToEnd.NoTokenNoHeader | client/src/services/api.service.ts:8-10 | without a token no header is sent, and the middleware answers "No authorization header provided" |
| EndToEnd.PageWithoutSessionAsksAboutUndefined | client/src/app/page.tsx:64 | without a session, the page makes the provider look up the token "undefined" |
| EndToEnd.EditingUndatedJobFails | client/src/components/modals/JobFormModal.tsx:31-33 | saving the edit form of an undated job sends "" as the date, and the update fails |
| EndToEnd.UnchangedEditNormalises | server/src/controllers/jobController.js:87-98 | saving a dated job's form unchanged through the route keeps status, id and owner, stores company and role trimmed, stores the date as shown, and turns null notes and link into "" |
| EndToEnd.FilteredDashboardCounts | client/src/app/page.tsx:444-454 | under a status filter, the dashboard shows that count equal to the list's length and the others as zero |

## Left out

- The Express app in `server/server.js` is not part of this model: helmet, CORS, hpp, rate limiting, listen and the health route. Only its error handler is kept, as the generic 500 "Something went wrong!". The app does not mount `jobRoutes` at `/api/applications`, so as written it answers every API request with Express's default 404. The model assumes the router is mounted there.
- JobRoutes.Sanitized: express-validator's `toString` is taken for strings, null and missing values only, since request bodies are modelled as strings or null.
- The other fields of express-validator's error objects (`type`, `value`, `location`) are left out; each error keeps only its path and message.
- Query parameters given as arrays, and a query string broken into fields, are not modelled.
- `isURL`, PostgreSQL's date and integer input, the driver's rendering of `created_at` (`render`) and `toISOString` are parameters. Time zones and locales are not modelled.
- ILIKE is modelled with ASCII case folding. Unicode case folding and the `\` escape are left out.
- Rows with equal `created_at` are listed in one reading of `ORDER BY created_at DESC`. PostgreSQL leaves their order open, so only the descending order is proved.
- The id sequence is a counter. Gaps left by failed inserts are not modelled.
- JSON text is not modelled: the body a request sends is the form value, not its `JSON.stringify`, and parsing is the `parse` parameter.
- URL encoding of the filter in the dashboard's list URL is not modelled.
- String lengths count characters, not UTF-16 code units.
- React scheduling is not modelled: effects run in the order written, and each handler runs to its end before the next starts. Overlapping requests and several tabs are left out.
- The `AuthContext` provider, `supabase` and `CustomSelect` are not part of this model.
- Presentation components are left out because they hold no state: JobCard, Navbar, DeleteConfirmModal, not-found and layout, plus every class name, icon and animation.
- The browser's constraint checks on the auth form (`required`, `type="email"`) are not modelled. On the job form they appear only as `JobFormModal.BrowserSubmits`.
- ClientTypes.JobOf: `created_at` reaches the client through the `render` parameter. Every other field the client reads (`id`, the text columns, `status` and `applied_date`) is copied from the row.
- ClientTypes.JobOf / Schema.Row: `applied_date` is kept as the text it was written from. The migration declares it a `date` column, so PostgreSQL normalises the text ("2024-1-5" and "2024-01-05" are stored as the same value). node-postgres then returns a JS `Date`, which `res.json` sends as an ISO timestamp, shifted by the server's time zone. That normalisation and rendering are not modelled apart: the edit form's `toDateInput` parameter stands for the whole chain from the stored text to the form's date value.
- JobController.JobStore.GetJobs: a database failure unrelated to the data, such as a lost connection, is not modelled. The source hands such an error to `next(err)`, and the client gets the generic 500. The model answers 200 whenever the query runs.
- JobController.JobStore.DeleteJob: has no 500 path, for the same reason.
- JobController.JobStore.CreateJob: fails only on a constraint or date-input error. Other database failures are left out, as for GetJobs.
- JobController.JobStore.UpdateJob: fails only on a constraint or date-input error. Other database failures are left out, as for GetJobs.
- Request bodies hold only strings or null. A JSON number, boolean, array or object in a field cannot be expressed in the model, though express-validator and pg would accept some of them.
