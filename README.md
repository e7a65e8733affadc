# Employer portal core, modelled in Dafny

This project models the parts of the employer-facing staffing portal that hold
logic of their own:

- **The people directory table** (`NannyTable`). It derives the sorted,
  duplicate-free tribe and location options from the loaded list of people. It
  shows the people that pass three filters at once: two exact-match selects
  with an `"all"` sentinel, and a case-insensitive substring search on the name.
  Its three filter cells have setters and a "clear filters" reset. A
  "has active filters" predicate decides whether the reset button is shown.
- **The HTTP client's interceptors.** The request hook attaches
  `Authorization: Bearer <token>` when a truthy token is stored in session
  storage. The request-error hook notifies "Request setup error" and rejects
  again. Successful responses pass through. Failed responses notify the first
  truthy message of a fixed precedence chain and are rejected again.
- **The sign-up form.** Its validation schema includes the
  password-confirmation rule. The registration payload drops `confirmPassword`
  and fixes `role` to `"employer"`. The form navigates to the dashboard only
  when registration succeeds.
- **The "Create Job" dialog.** Its five-rule schema and its default values are
  modelled. A submission moves `open`, `isLoading` and the form values through
  their states on success and on failure.

Modules and files:

| file | module | models |
|---|---|---|
| common.dfy | Common | optional values, settled promises, the toast notification log (`Toaster`), schema issues (`Issue`, `Check`) |
| text.dfy | Text | `toLowerCase` (ASCII), `includes`, a string's `length` in UTF-16 code units (`Utf16Length`), the string order used by `sort()` |
| ordered.dfy | Ordered | `Array.from(new Set(xs)).sort()` |
| directory.dfy | Directory | `src/components/custom/nannyTable.tsx` |
| interceptors.dfy | Api | `src/services/axios.config.ts` |
| signup.dfy | Signup | `src/components/signup-form.tsx` |
| jobdialog.dfy | JobDialog | `src/components/custom/CreateJobDialog.tsx` |

Two parts are pure functions with lemmas: the filter logic with its option
lists, which are `useMemo` expressions over `map`, `Set`, `sort` and `filter`,
and the validation schemas. The following parts change state in place and
are classes whose methods state the whole new state:

- the directory's filter cells (`Directory.NannyTable`);
- the request config whose headers the request hook mutates (`Api.RequestConfig`);
- the notification log (`Common.Toaster`);
- the job dialog (`JobDialog.CreateJobDialog`).

The functions that carry the model have no row of their own below; the lemmas
about them cite the same source lines:

- `Text.Contains` and `Text.LessEq` for `includes` and the sort order;
- `Common.Check` for one schema rule: no issue when it holds, else its own
  issue;
- `Ordered.DistinctSorted` for `Array.from(new Set(xs)).sort()`, and
  `Directory.Tribes` and `Directory.Locations` for the `tribes` and
  `locations` memos built with it (nannyTable.tsx:58-70);
- `Directory.Retained`, `Directory.HasActiveFilters` and `Directory.Render`
  for the filter test, the clear button and the table body;
- `Signup.Valid` and `Signup.Issues` for `signupSchema` and the issues it
  reports (signup-form.tsx:21-39);
- `Signup.Payload` and `Signup.Submit` for the registration payload and the
  submission's outcome;
- `Signup.Navigation` for the `navigate("/employer/dashboard")` call
  (signup-form.tsx:78);
- `JobDialog.Valid` and `JobDialog.Issues` for `formSchema` and its issues
  (CreateJobDialog.tsx:36-52);
- `JobDialog.CreateJobDialog.SubmitDisabled` for the submit button's
  `disabled={isLoading}` (CreateJobDialog.tsx:205);
- `Api.GetItem` for `sessionStorage.getItem` (axios.config.ts:12).

`Text.Upper` models no source call. It only builds the upper-case queries of
`Directory.UpperQueryChangesNothing`.

The foreign pieces are inputs of the model:

- Session storage is a `map<string, string>` argument.
- The outcome of each network call (`createEmployer`, `createJob`, the HTTP
  transport) is an argument: a `bool`, or a `Settled` value.
- The schema library's e-mail check is an uninterpreted predicate argument,
  `isEmail: string -> bool`.
- Navigation is the returned route.
- Notifications are appended to `Toaster.log`.

The model follows the components as written:

- The directory table filters a fixed in-file list (`mockData`). The model
  takes that list as a parameter (`NannyTable.people`). It does not model a
  fetch state machine.
- Only `name` is searched.
- The option lists are computed once from that list.
- A tribe or location whose value is literally `"all"` would be offered as an
  option, and choosing it would show everyone: the selects cannot tell it from
  the sentinel (`Directory.SentinelTribeShowsEveryone`). The in-file list holds
  no such value, so the running table never meets this case.
- Length rules of the schemas count UTF-16 code units, as a JavaScript
  string's `length` does (`Text.Utf16Length`).

## Model

| member | source | states |
|---|---|---|
| Text.LowerChar | src/components/custom/nannyTable.tsx:79-81 | a folded character is the same letter up to case and is never upper-case, which fixes it uniquely |
| Text.LowerCharEqualIff | src/components/custom/nannyTable.tsx:79-81 | two characters fold to the same one exactly when they are equal or the two cases of one ASCII letter |
| Text.Lower | src/components/custom/nannyTable.tsx:79-81 | `toLowerCase` keeps the length, keeps every character up to case, and leaves no upper-case letter |
| Text.LowerEqualIff | src/components/custom/nannyTable.tsx:79-81 | two strings lower-case to the same string exactly when they have the same length and differ position by position only in ASCII letter case |
| Text.LowerOfUpper | src/components/custom/nannyTable.tsx:79-81 | lower-casing an upper-cased string gives the same string as lower-casing it directly |
| Text.LowerIdempotent | src/components/custom/nannyTable.tsx:79-81 | lower-casing twice equals lower-casing once |
| Text.Utf16Length | src/components/signup-form.tsx:21-35 | a string's `length` lies between its number of characters and twice that, and is 0 exactly for the empty string |
| Text.Utf16LengthOfBmp | src/components/signup-form.tsx:21-35 | for text inside the Basic Multilingual Plane, `length` is the number of characters |
| Text.ContainsIffOccurs | src/components/custom/nannyTable.tsx:79-81 | `includes` holds exactly when the needle occurs at some offset of the haystack, in both directions |
| Text.ContainsEmpty | src/components/custom/nannyTable.tsx:55 | the empty default query is a substring of every name |
| Text.LessEqReflexive | src/components/custom/nannyTable.tsx:62 | the order `sort()` uses is reflexive |
| Text.LessEqAntisymmetric | src/components/custom/nannyTable.tsx:62 | the order is antisymmetric: strings ordered both ways are equal |
| Text.LessEqTransitive | src/components/custom/nannyTable.tsx:62 | the order is transitive |
| Text.LessEqTotal | src/components/custom/nannyTable.tsx:62 | any two strings are ordered one way or the other |
| Ordered.Dedup | src/components/custom/nannyTable.tsx:59-61 | `Array.from(new Set(xs))` has no duplicates and holds exactly the values of `xs` |
| Ordered.Insert | src/components/custom/nannyTable.tsx:62 | one insertion step of the sort adds exactly the inserted value to the multiset |
| Ordered.Sort | src/components/custom/nannyTable.tsx:62 | `sort()` returns a permutation of its input |
| Ordered.InsertSorted | src/components/custom/nannyTable.tsx:62 | inserting into a sorted list keeps it sorted |
| Ordered.InsertNoDuplicates | src/components/custom/nannyTable.tsx:62 | inserting a new value into a duplicate-free list keeps it duplicate-free |
| Ordered.SortSorted | src/components/custom/nannyTable.tsx:62 | `sort()` returns an ascending list |
| Ordered.SortNoDuplicates | src/components/custom/nannyTable.tsx:62 | sorting a duplicate-free list keeps it duplicate-free |
| Ordered.DistinctSortedSpec | src/components/custom/nannyTable.tsx:58-70 | the option list has no duplicates, is ascending and strictly ascending, and holds exactly the column's values |
| Ordered.SortedUnique | src/components/custom/nannyTable.tsx:62 | two ascending, duplicate-free lists with the same elements are equal, so the result does not depend on the sort algorithm |
| Ordered.DistinctSortedDependsOnValuesOnly | src/components/custom/nannyTable.tsx:58-70 | the option list depends only on which values occur, not on their order or repetition |
| Directory.Filtered | src/components/custom/nannyTable.tsx:73-84 | `filteredData` is no longer than the list (the "N of M" badge), and a person is in it exactly when it is loaded and passes all three filters |
| Directory.FilteredIsSubsequence | src/components/custom/nannyTable.tsx:73-84 | the displayed rows are an order-preserving subsequence of the loaded list |
| Directory.FilteredMultiplicity | src/components/custom/nannyTable.tsx:73-84 | each person appears as often as it is loaded if it passes the filters, and not at all otherwise |
| Directory.FilteredAllRetained | src/components/custom/nannyTable.tsx:73-84 | when every loaded person passes, the whole list is shown unchanged |
| Directory.DefaultShowsEveryone | src/components/custom/nannyTable.tsx:53-55 | with the initial filters (`"all"`, `"all"`, `""`) the whole list is shown |
| Directory.InactiveFiltersShowEveryone | src/components/custom/nannyTable.tsx:92-93 | `hasActiveFilters` holds exactly when the filters differ from their defaults; inactive filters show the whole list |
| Directory.SearchIgnoresCase | src/components/custom/nannyTable.tsx:79-81 | two queries that agree after lower-casing select the same rows |
| Directory.LowerQueryChangesNothing | src/components/custom/nannyTable.tsx:79-81 | lower-casing the query beforehand does not change the result |
| Directory.UpperQueryChangesNothing | src/components/custom/nannyTable.tsx:79-81 | upper-casing the query beforehand does not change the result |
| Directory.CaseVariantQueriesAgree | src/components/custom/nannyTable.tsx:79-81 | queries that differ only in ASCII letter case select the same rows |
| Directory.TribeSelection | src/components/custom/nannyTable.tsx:75-76 | selecting a tribe shows only people of that tribe, as many as the list holds |
| Directory.LocationSelection | src/components/custom/nannyTable.tsx:77-78 | selecting a location shows only people at that location, as many as the list holds |
| Directory.TribesSpec | src/components/custom/nannyTable.tsx:58-63 | `tribes` is duplicate-free and ascending, and offers a value exactly when some person has that tribe |
| Directory.LocationsSpec | src/components/custom/nannyTable.tsx:65-70 | `locations` is duplicate-free and ascending, and offers a value exactly when some person has that location |
| Directory.OfferedTribeNotEmpty | src/components/custom/nannyTable.tsx:150-160 | choosing any offered tribe never empties the table |
| Directory.OfferedLocationNotEmpty | src/components/custom/nannyTable.tsx:179-189 | choosing any offered location never empties the table |
| Directory.SearchScenario | src/components/custom/nannyTable.tsx:79-81 | in the list [Wanjiru, Otieno], the query "wan" shows exactly [Wanjiru] |
| Directory.LocationScenario | src/components/custom/nannyTable.tsx:77-78 | in the list [Wanjiru, Otieno], the location Kisumu shows exactly [Otieno] |
| Directory.TableSpec | src/components/custom/nannyTable.tsx:199-259 | "No results found" is shown exactly when no loaded person passes the filters; otherwise the rows list the shown people in order, row i is labelled i+1, and the last label equals the badge's count `filteredData.length`, which is at most the list's size |
| Directory.SentinelTribeShowsEveryone | src/components/custom/nannyTable.tsx:75-76 | in a list where one tribe is spelled "all", that tribe is offered, yet choosing it shows the whole list rather than its one member |
| Directory.NannyTable.constructor | src/components/custom/nannyTable.tsx:53-55 | the cells start at `"all"`, `"all"`, `""`, and the whole list is shown |
| Directory.NannyTable.SetTribeFilter | src/components/custom/nannyTable.tsx:142-145 | the tribe select changes the tribe cell only |
| Directory.NannyTable.SetLocationFilter | src/components/custom/nannyTable.tsx:171-174 | the location select changes the location cell only |
| Directory.NannyTable.SetSearchQuery | src/components/custom/nannyTable.tsx:117-131 | the search input and its clear button change the query cell only |
| Directory.NannyTable.ClearFilters | src/components/custom/nannyTable.tsx:86-93 | afterwards every cell is at its default, the clear button is hidden and the whole list is shown |
| Api.WithBearer | src/services/axios.config.ts:12-15 | a truthy token sets `Authorization` to `"Bearer " + token`; an absent or empty token leaves the headers unchanged; no other header changes |
| Api.OnRequest | src/services/axios.config.ts:11-17 | the hook returns the same config object, whose headers are `WithBearer` of the old headers and the stored `access_token`; nothing else changes |
| Api.OnRequestError | src/services/axios.config.ts:18-21 | one "Request setup error" notification is appended and the same error is rejected again |
| Api.ErrorMessage | src/services/axios.config.ts:27-31 | the chosen message is never empty and is either one of the probed values or "Something went wrong" |
| Api.ErrorMessageIsFirstTruthy | src/services/axios.config.ts:27-31 | the message is the first truthy value of `data.message`, `data.error`, `error.message`, in that order, or the fallback |
| Api.EmptyBodyMessageSkipped | src/services/axios.config.ts:28 | an empty-string `data.message` is skipped exactly as an absent one |
| Api.NoTruthyFieldGivesFallback | src/services/axios.config.ts:31 | when no probed value is truthy the message is "Something went wrong" |
| Api.OnResponse | src/services/axios.config.ts:24-35 | a success passes through unchanged and adds no notification; a failure adds exactly one error notification with `ErrorMessage` and is rejected again with the same error |
| Api.BearerScenarios | src/services/axios.config.ts:12-15 | with no stored token no `Authorization` header is added; with token "abc" the header is "Bearer abc" |
| Api.InvalidCredentialsScenario | src/services/axios.config.ts:27-31 | a 401 answer with body message "invalid credentials" shows exactly "invalid credentials" |
| Common.Toaster.Error | src/services/axios.config.ts:33 | `toast.error` appends exactly one error notification with the message |
| Common.Toaster.Success | src/components/custom/CreateJobDialog.tsx:75 | `toast.success` appends exactly one success notification with the message |
| Signup.ValidIffNoIssues | src/components/signup-form.tsx:21-39 | the form passes exactly when no issue is reported; a passing form has a password of at least 8 UTF-16 code units equal to its confirmation, a phone number of at least 10 code units, and non-empty names, location, tribe and religion |
| Signup.PasswordIssueReported | src/components/signup-form.tsx:24-26 | the password issue is reported exactly when the password is shorter than eight UTF-16 code units |
| Signup.AstralPasswordAccepted | src/components/signup-form.tsx:24-26 | a password of four emoji outside the Basic Multilingual Plane has four characters but eight code units, and passes the eight-character rule |
| Signup.MismatchReported | src/components/signup-form.tsx:36-39 | the issue "Passwords do not match" on `confirmPassword` is reported exactly when the passwords differ |
| Signup.PayloadRoundTrip | src/components/signup-form.tsx:62-72 | the payload has role "employer", copies every other field unchanged, and loses only the confirmation |
| Signup.NavigatesOnlyOnSuccess | src/components/signup-form.tsx:60-82 | the dashboard is reached exactly when the data is valid and registration resolved; a rejection only leads to no navigation; whatever is sent is the payload |
| JobDialog.ValidIffNoIssues | src/components/custom/CreateJobDialog.tsx:36-52 | the job form passes exactly when none of the five rules, which measure text in UTF-16 code units, reports an issue |
| JobDialog.AstralTitleAccepted | src/components/custom/CreateJobDialog.tsx:37-39 | a one-character title outside the Basic Multilingual Plane is two code units long and passes the two-character rule; a one-letter ASCII title fails it |
| JobDialog.DefaultsInvalid | src/components/custom/CreateJobDialog.tsx:62-68 | the default values fail the schema on title, description, location and work type; salary 0 passes |
| JobDialog.CreateJobDialog.constructor | src/components/custom/CreateJobDialog.tsx:57-69 | the dialog starts closed, idle, with the default values and no call issued |
| JobDialog.CreateJobDialog.SetOpen | src/components/custom/CreateJobDialog.tsx:87 | `onOpenChange` changes `open` only |
| JobDialog.CreateJobDialog.Edit | src/components/custom/CreateJobDialog.tsx:105-203 | editing a field changes the form values only |
| JobDialog.CreateJobDialog.BeginSubmit | src/components/custom/CreateJobDialog.tsx:71-74 | a call is issued exactly when the button is enabled (not loading) and the values pass; it sets `isLoading` and records the values sent |
| JobDialog.CreateJobDialog.FinishSubmit | src/components/custom/CreateJobDialog.tsx:74-83 | on success one success toast, the dialog closed and the form reset; on failure one error toast "Failed to create job. Please try again." with `open` and the values unchanged; `isLoading` false either way |
| JobDialog.CreateJobDialog.Submit | src/components/custom/CreateJobDialog.tsx:71-84 | a whole submission from the button: nothing happens unless the values pass and no call is in flight; otherwise one call with those values, then the success or failure state |

## Left out

- JSX, styling, icons and the footer caption are presentation only.
- The sidebar, the route tables, the app shell, the route guard (which only
  holds a `sidebarOpen` flag), the static profile page and the login form
  (which only navigates) are not part of this model.
- The jobs page's fetch-once effect, `getMyJobs`, `createJob` and the service
  wrappers are not part of this model: their network calls are the `bool`
  outcomes passed to `Signup.Submit` and `JobDialog.CreateJobDialog.FinishSubmit`.
- `console.log` and `console.error` are diagnostics and are left out.
- Text.Lower: folds ASCII letters only; the Unicode case mapping of `toLowerCase` is not modelled.
- Text.LessEq: orders strings by character code, which equals the UTF-16 code-unit order of `sort()` only for characters inside the Basic Multilingual Plane.
- Ordered.Sort: is an insertion sort. The engine's own sort algorithm is left
  out. For the de-duplicated option lists the choice does not matter:
  `Ordered.SortedUnique` shows that two ascending, duplicate-free lists with
  the same elements are equal. For lists with repeated values it says nothing.
- Api.ErrorMessage: message fields are strings or absent. A non-string truthy
  value (a number, an object) that JavaScript's `||` would forward to `toast.error` is not modelled.
- The error passed to the response hook is always an object here. The
  `error?.` guard against a null error is not modelled.
- Headers are a plain map with exact-case keys; the client library's
  case-insensitive header object is not modelled.
- Signup.ValidIffNoIssues: the e-mail rule is the uninterpreted `isEmail`.
  The password-mismatch issue is reported together with the field issues.
  Whether the schema library runs the refinement when a field rule already
  failed depends on its version, which is not modelled.
- The form library's `isSubmitting` flag on the sign-up button is not modelled.
- JobDialog.Valid: salary is an integer. The number/NaN/string coercion of the
  salary input is not modelled.
- A failing job-creation call in the running app may also pass through the
  response interceptor, which would add its own notification. The dialog model
  records only the dialog's own notification, because the service module it
  imports is not part of this model.
- Asynchrony is reduced to two steps: a submission is issued
  (`BeginSubmit`) and later settles (`FinishSubmit`). An unmount before
  settling, and the timing of React state batching, are not modelled.
