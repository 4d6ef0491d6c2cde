# Finance tracker core, modelled in Dafny

This project models the core of a personal finance tracker. The tracker is an Express + MongoDB backend with a React frontend. The project states properties of that core and proves them.

- **Ledger** (`ledger.dfy`) models the income and expense controllers:
  - adding a record, with the falsy-field check and the `catch` that turns every failure into a 500;
  - listing a user's records newest first;
  - deleting by id;
  - the rows of the spreadsheet export.
- **Dashboard** (`dashboard.dfy`) models `getDashboardData`:
  - the lifetime totals and the balance;
  - the 60-day income window and the 30-day expense window;
  - the five most recent transactions of either kind;
  - the collapse of any failure into a single 500.
- **Session** (`session.dfy`) models the user controller:
  - registration checks;
  - login;
  - logout;
  - refresh-token rotation.

  The persistent session state is one optional refresh-token slot per user. The invariant `Valid` says that a slot holds only a token issued to that user before now. Every operation preserves it.
- **Chart** (`chart.dfy`) models `prepareChartData` of the income and expense pages:
  - records are grouped by day label;
  - each group's amounts are summed;
  - the groups are sorted ascending.

  The two pages hold the same function (`frontend/src/routes/Income.jsx` lines 52-72 and `frontend/src/routes/Expense.jsx` lines 51-68), so one model serves both.
- **Forms** (`forms.dfy`) models the add forms of the two pages. It covers the client-side required-field check, the posted body and the reset after a successful add.
- **Shared modules:**
  - `api.dfy`: the `ApiError`/`Result` values;
  - `jsstring.dfy`: JavaScript truthiness, `trim` and `toLowerCase`;
  - `seqs.dfy`: a stable sort by a numeric key, a merge, and prefix and sum.

Records are datatypes and the collections are sequences in store order. Dates are integer milliseconds and amounts are integers in the smallest currency unit. Anything the code cannot decide by itself is a parameter of the model:

- the clock (`now`);
- whether the store answers (`storeUp`, or a set of failing reads);
- the date cast;
- `jwt.verify`;
- the password check;
- the avatar upload;
- `parseFloat`;
- the locale date label.

## Model

| member | source | states |
|---|---|---|
| `JsString.TrimStartFacts` | backend/src/controllers/user.controller.js:27 | `trimStart` removes a prefix made only of white space, and what remains is empty or starts with a character `trim` keeps |
| `JsString.TrimEndFacts` | backend/src/controllers/user.controller.js:27 | `trimEnd` removes a suffix made only of white space, and what remains is empty or ends with a character `trim` keeps |
| `JsString.TrimEmptyIffBlank` | backend/src/controllers/user.controller.js:27 | `field.trim() === ''` holds exactly when the field consists only of ECMAScript white space and line terminators |
| `JsString.ToLower` | backend/src/controllers/user.controller.js:55 | the stored username has the same length as the given one, with each ASCII capital mapped to its lower-case letter and every other character kept |
| `Seqs.SortDesc` | backend/src/controllers/income.controller.js:41 | `.sort({date: -1})`: the result is ordered by non-increasing key and is a permutation of the input |
| `Seqs.SortDistinctBy` | backend/src/controllers/income.controller.js:41 | a list without two records of the same id still has none after sorting |
| `Seqs.SortConcatIsMerge` | backend/src/controllers/dashboard.controller.js:55-56 | stably sorting two already sorted lists placed one after the other gives their merge, which prefers the first list on equal dates |
| `Seqs.TakeMerge` | backend/src/controllers/dashboard.controller.js:46-57 | the first n of a merge depend only on the first n of each input, which is why `.limit(5)` on each collection loses nothing |
| `Ledger.OwnedBy` | backend/src/controllers/income.controller.js:41 | `find({userId})` holds only records of that user, and every record of that user |
| `Ledger.CheckEntry` | backend/src/controllers/income.controller.js:12-14 | the field check passes exactly when source/category, amount and date are all truthy, so amount 0 and empty strings are refused with 400 |
| `Ledger.CreateEntry` | backend/src/controllers/income.controller.js:10-24 | the body of the `try`: a failed field check is its 400; a date that does not cast or a store that fails is a crash; otherwise exactly one record, with the fresh id, the caller's id and the given icon, title, amount and cast date, is appended, and the ids of the store stay unique |
| `Ledger.CatchAs500` | backend/src/controllers/income.controller.js:31-32 | the `catch` keeps a success unchanged and turns any failure, including the check's own 400, into the handler's single 500 |
| `Ledger.AddIncome` | backend/src/controllers/income.controller.js:6-35 | succeeds exactly when the fields are truthy, the date casts and the store answers; the one new record carries an id no stored record has, the caller's id and the given icon, source, amount and date, and nothing else in the store changes, so unique ids stay unique; every failure is the 500 "Something went wrong while adding income" |
| `Ledger.AddExpense` | backend/src/controllers/expense.controller.js:7-34 | the same for expenses with category, and the 500 "Something went wrong while adding expense" |
| `Ledger.AddIncomeHidesValidation` | backend/src/controllers/income.controller.js:12-32 | with amount 0 the check throws 400, yet the caller sees the 500 |
| `Ledger.AddExpenseHidesValidation` | backend/src/controllers/expense.controller.js:12-32 | the same for expenses |
| `Ledger.ListOwned` | backend/src/controllers/income.controller.js:40-45 | a listing is newest first and holds exactly the caller's records (as a multiset); a store failure is a 500 |
| `Ledger.ListingMembership` | backend/src/controllers/income.controller.js:41 | a permutation of the caller's records contains a record exactly when it is in the store and belongs to the caller |
| `Ledger.OwnedUnique` | backend/src/controllers/income.controller.js:41 | the caller's records of a store with unique ids have unique ids |
| `Ledger.GetAllIncome` | backend/src/controllers/income.controller.js:37-47 | the response holds exactly the caller's incomes, as many times as the store holds them, newest first, so each once when the store's ids are unique; or the 500 "Something went wrong while fetching incomes" |
| `Ledger.GetAllExpenses` | backend/src/controllers/expense.controller.js:37-49 | the same for expenses, with the 500 "Something went wrong while fetching expenses" |
| `Ledger.RemoveWhereMembers` | backend/src/controllers/income.controller.js:53-56 | a record is in the store after a delete exactly when it was in it before and is not the one targeted |
| `Ledger.RemoveWhereCounts` | backend/src/controllers/income.controller.js:53-56 | a delete drops every copy of the targeted record and keeps every other record as many times as the store held it |
| `Ledger.RemoveWhereConcat` | backend/src/controllers/income.controller.js:53-56 | deleting from two stretches of the store one after the other is deleting from each, so the survivors keep their order |
| `Ledger.RemoveNothing` | backend/src/controllers/income.controller.js:53-57 | a delete whose id matches no record leaves the store as it is (the reply still says it was deleted) |
| `Ledger.RemoveKeepsUnique` | backend/src/controllers/income.controller.js:53-56 | a delete keeps the ids of the store unique |
| `Ledger.RemoveAtMostOne` | backend/src/controllers/income.controller.js:53-56 | with unique ids, a delete removes at most one record |
| `Ledger.DeleteIncome` | backend/src/controllers/income.controller.js:49-62 | as written: the record with the id goes whoever owns it, and the reply is "Income deleted successfully" whether or not anything matched; the new store is the id-only filter of the old one, so the survivors keep their order and multiplicity; with unique ids at most one record goes and the ids stay unique; a store failure is a 500 |
| `Ledger.DeleteIncomeOwned` | backend/src/controllers/income.controller.js:53-56 | with the owner condition honoured, only a record with that id that belongs to the caller is removed, the store being the owner-scoped filter of the old one (order and multiplicity kept), and with unique ids at most one |
| `Ledger.CrossUserIncomeDelete` | backend/src/controllers/income.controller.js:53-57 | user 2 deleting user 1's income 7 removes it as written, while the owner-scoped delete leaves it |
| `Ledger.DeleteExpense` | backend/src/controllers/expense.controller.js:51-62 | as written: an id-only delete that always replies "Expense deleted successfully" when the store answers; the new store is the id-only filter of the old one, in order; with unique ids at most one record goes and the ids stay unique |
| `Ledger.DeleteExpenseOwned` | backend/src/controllers/expense.controller.js:54-57 | the owner-scoped expense delete: the new store is the owner-scoped filter of the old one, in order, and at most one record goes when ids are unique |
| `Ledger.CrossUserExpenseDelete` | backend/src/controllers/expense.controller.js:54-58 | user 2 deleting user 1's expense 7 removes it as written, while the owner-scoped delete leaves it |
| `Ledger.IncomeSheet` | backend/src/controllers/income.controller.js:67-74 | one row per record of the caller's newest-first listing, in that order, holding Source, Amount and the date string |
| `Ledger.IncomeSheetTotal` | backend/src/controllers/income.controller.js:70-74 | the Amount column sums to the caller's lifetime income |
| `Ledger.ExpenseSheet` | backend/src/controllers/expense.controller.js:69-75 | one row per record of the caller's newest-first listing, in that order, holding Category, Amount and Date |
| `Ledger.ExpenseSheetNewestFirst` | backend/src/controllers/expense.controller.js:69-75 | the Date column never increases down the sheet, and each row comes from one of the caller's expenses |
| `Dashboard.GroupTotal` | backend/src/controllers/dashboard.controller.js:15-18 | the `$match`/`$group` aggregation yields at most one group |
| `Dashboard.LifetimeTotal` | backend/src/controllers/dashboard.controller.js:60-61 | `groups[0]?.total \|\| 0` is the sum of the user's amounts, and 0 when the user has no records |
| `Dashboard.InWindow` | backend/src/controllers/dashboard.controller.js:29-32 | the window query returns exactly the user's records dated at or after the cut-off (inclusive) |
| `Dashboard.InWindowOfOwned` | backend/src/controllers/dashboard.controller.js:29-31 | the window query sees only the user's own records |
| `Dashboard.TagAll` | backend/src/controllers/dashboard.controller.js:51-52 | each record is tagged with the kind of its collection, in place |
| `Dashboard.TagAllSorted` | backend/src/controllers/dashboard.controller.js:51-52 | tagging keeps the newest-first order |
| `Dashboard.RecentFeed` | backend/src/controllers/dashboard.controller.js:46-57 | the merged feed of two lists is newest first, has min(5, total length) entries, and each entry is a record of the list it is tagged with |
| `Dashboard.Summarize` | backend/src/controllers/dashboard.controller.js:60-78 | the reported lifetime totals are the sums of the user's amounts, the balance is their difference, and each window reports its list with that list's sum |
| `Dashboard.GetDashboardData` | backend/src/controllers/dashboard.controller.js:9-83 | any failing read gives the single 500 "Something went wrong while fetching dashboard data" and no data; otherwise the totals are the sums over the user's records and the balance is their difference, which is not clamped |
| `Dashboard.WindowOf` | backend/src/controllers/dashboard.controller.js:29-43 | a window is sorted newest first, holds exactly the matching records, and its total is the sum of its own list |
| `Dashboard.Last60DaysIncome` | backend/src/controllers/dashboard.controller.js:29-35 | `last60DaysIncome` is exactly the user's incomes with date ≥ now − 60·86400000, newest first, with their sum |
| `Dashboard.Last30DaysExpenses` | backend/src/controllers/dashboard.controller.js:38-43 | `last30DaysExpenses` is exactly the user's expenses with date ≥ now − 30·86400000, newest first, with their sum |
| `Dashboard.LatestTaggedFacts` | backend/src/controllers/dashboard.controller.js:46-52 | each `.limit(5)` list has min(5, n) entries, newest first, each one of the user's records tagged with its own kind |
| `Dashboard.RecentTransactions` | backend/src/controllers/dashboard.controller.js:46-57 | `recentTransactions` is newest first, has min(5, nIncome + nExpense) entries, and each entry is one of the user's records tagged with the collection it came from |
| `Dashboard.FeedOfUser` | backend/src/controllers/dashboard.controller.js:46-57 | the reported feed is built from the user's own records of each collection |
| `Dashboard.OwnedEntryBelongs` | backend/src/controllers/dashboard.controller.js:47-48 | an entry drawn from the user's records of a collection is a record of that user in that collection |
| `Dashboard.FeedOfParts` | backend/src/controllers/dashboard.controller.js:55-57 | the first five of the sorted concatenation are sorted, have min(5, total length) entries and come from the two lists |
| `Dashboard.RecentIsTopOfUnion` | backend/src/controllers/dashboard.controller.js:46-57 | taking the five newest of each kind first, then merging, equals the first five of the stable newest-first sort of all the user's records of both kinds |
| `Dashboard.FeedIsTopOfUnion` | backend/src/controllers/dashboard.controller.js:46-57 | over any two lists of the user's records: the feed built from the five newest of each kind is the first five of the stable newest-first sort of all of them |
| `Dashboard.NoRecordsGivesZeros` | backend/src/controllers/dashboard.controller.js:60-61 | a user with no records gets zeros and empty lists, not an error |
| `Dashboard.OnlyOwnRecordsCount` | backend/src/controllers/dashboard.controller.js:16-48 | two databases that agree on the user's records give the same dashboard, so other users' records never contribute |
| `Dashboard.SameWindow` | backend/src/controllers/dashboard.controller.js:29-41 | stores that agree on a user's records give that user the same window |
| `Dashboard.Scenario` | backend/src/controllers/dashboard.controller.js:9-83 | concrete run: incomes 100 (day 0) and 50 (day 10) and expense 30 (day 5), seen at day 0, give balance 120, totals 150 and 30, and the feed bonus, food, salary |
| `Session.NextSerialUnused` | backend/src/controllers/user.controller.js:11-13 | a freshly issued token is in no slot of a valid store |
| `Session.Issue` | backend/src/controllers/user.controller.js:8-20 | issuing stores the new refresh token in the user's slot, overwriting the old one, and leaves every other user unchanged; the token is new to the store and the invariant is kept; a missing user or failed save is the 500 "Something went wrong while generating refresh and access tokens" |
| `Session.FindFrom` | backend/src/controllers/user.controller.js:32-34 | `findOne({$or: [{username}, {email}]})` returns the first user whose raw username or email matches, or no user when none does |
| `Session.BlankFieldIff` | backend/src/controllers/user.controller.js:27 | the register check fires on a present field exactly when it is white space only |
| `Session.AppendKeepsValid` | backend/src/controllers/user.controller.js:52-57 | creating a user with no refresh token keeps the invariant |
| `Session.Vet` | backend/src/controllers/user.controller.js:26-57 | the checks let a user through only when all three fields and the upload URL are present, and the user they let through is the one `User.create` receives: the lower-cased username, the given email and password, the avatar URL and no refresh token |
| `Session.Register` | backend/src/controllers/user.controller.js:22-57 | registration fails with the checks' error exactly when they refuse; otherwise the new user is appended under the next `_id`, and the existing users, their refresh-token slots and the token serial stay unchanged |
| `Session.RegisterChecksInOrder` | backend/src/controllers/user.controller.js:26-50 | the 400 "username and email is required" fires exactly when a present field is white space only, so an absent field passes it; the 409 fires exactly when no field is blank and some user has the raw username or email; registration goes ahead exactly when all three fields are present and not blank, no user matches, and the avatar was given and uploaded |
| `Session.RegisterKeepsValid` | backend/src/controllers/user.controller.js:52-57 | registration keeps the session invariant |
| `Session.Login` | backend/src/controllers/user.controller.js:74-124 | checks run in order: 400 exactly when neither username nor email is truthy; 404 exactly when no user matches; 401 exactly when the first match's password is wrong; and when the password is right the result is exactly issuing a session for that user |
| `Session.Logout` | backend/src/controllers/user.controller.js:126-153 | `$unset` empties the user's slot and changes nothing else, including for an unknown user; a failing store is a 500 |
| `Session.Incoming` | backend/src/controllers/user.controller.js:156 | `cookie \|\| body`: a token arrives exactly when the cookie or the body field is truthy, and a truthy cookie wins |
| `Session.Rethrown` | backend/src/controllers/user.controller.js:200 | the `catch` message is never empty: a non-empty error message is kept, an empty one becomes "Invalid refresh token" |
| `Session.Rotate` | backend/src/controllers/user.controller.js:154-204 | every refresh failure is a 401; no truthy token in the cookie or the body gives "Unauthorized request"; a token the verifier throws on gives the verifier's message; success happens exactly when the token verifies to an existing user whose slot holds that very token and the store answers, and it then rotates the slot |
| `Session.RefreshAccessToken` | backend/src/controllers/user.controller.js:183-196 | as written, a refresh succeeds exactly when the rotation does and changes the store as it does, but the reply sets the `refreshToken` cookie to the string "undefined" and its body has no refresh token |
| `Session.RefreshAccessTokenFixed` | backend/src/controllers/user.controller.js:183-196 | the corrected reply carries, as cookie and in the body, exactly the token now in the user's slot |
| `Session.RefreshRepliesAgree` | backend/src/controllers/user.controller.js:183-196 | the written and corrected refresh change the store alike and differ only in the reply's refresh token |
| `Session.ReplayAfterRotationFails` | backend/src/controllers/user.controller.js:174-176 | after a successful refresh, presenting the old token again fails with 401, whatever the verifier says |
| `Session.LogoutRevokes` | backend/src/controllers/user.controller.js:129-140 | after logout, no refresh token issued to that user, and no unsigned string, refreshes any more |
| `Session.LoginThenRefresh` | backend/src/controllers/user.controller.js:99-176 | the refresh token a successful login hands out refreshes, when the verifier accepts the server's own tokens |
| `Session.RefreshChainBreaks` | backend/src/controllers/user.controller.js:183-200 | as written, the refresh after a successful one is a 401: a client that keeps cookies presents "undefined", which is in no slot, and gets the verifier's message when the verifier throws on it (as `jwt.verify` does on a malformed token); a client that only echoes the body has no token and gets "Unauthorized request" |
| `Session.FixedRefreshChains` | backend/src/controllers/user.controller.js:183-192 | with the corrected reply, the token from one refresh, sent as cookie or in the body, makes the next refresh succeed, and the invariant holds |
| `Session.DuplicateCheckIsCaseSensitive` | backend/src/controllers/user.controller.js:32-55 | with `bob` registered, registering `Bob` with another email passes the 409 check and stores the username `bob` a second time |
| `Session.AbsentFieldsPassBlankCheck` | backend/src/controllers/user.controller.js:26-57 | a body with no fields passes the blank check and fails only at creation, with a 500 |
| `Chart.AddTo` | frontend/src/routes/Income.jsx:60-61 | one `forEach` step leaves the number of groups unchanged or adds exactly one |
| `Chart.AddToLabels` | frontend/src/routes/Income.jsx:54-62 | a step adds exactly the record's label to the set of labels |
| `Chart.AddToDistinct` | frontend/src/routes/Income.jsx:60 | a step never creates a second group for a label |
| `Chart.AddToAmounts` | frontend/src/routes/Income.jsx:61 | a step adds the record's amount to its own group and to no other |
| `Chart.AddToSum` | frontend/src/routes/Expense.jsx:59-60 | a step adds the record's amount to the sum of all groups |
| `Chart.Group` | frontend/src/routes/Income.jsx:53-62 | the `groupedByDate` object never has more entries than there are records, and has one as soon as there is a record |
| `Chart.GroupFacts` | frontend/src/routes/Expense.jsx:51-61 | the grouping has distinct labels and exactly the records' labels; each group holds its day's sum, and all groups together hold the sum of the list |
| `Chart.GroupLabels` | frontend/src/routes/Income.jsx:54-62 | the labels of the groups are distinct and are exactly the labels of the records |
| `Chart.GroupAmounts` | frontend/src/routes/Income.jsx:60-61 | each group holds the sum of its day's amounts, and all groups together hold the sum of the list |
| `Chart.SortDistinct` | frontend/src/routes/Income.jsx:64-69 | sorting keeps labels distinct |
| `Chart.PrepareChartData` | frontend/src/routes/Income.jsx:52-72 | chart entries are in ascending order of the day their label parses to |
| `Chart.SortLabels` | frontend/src/routes/Income.jsx:64-69 | sorting the groups keeps exactly the same labels |
| `Chart.SortAmounts` | frontend/src/routes/Income.jsx:64-69 | after sorting, each group still holds the amount its label had before |
| `Chart.ChartContents` | frontend/src/routes/Income.jsx:53-68 | exactly one entry per distinct date label of the records, each holding the sum of the amounts of that label's records |
| `Chart.ChartSumIsTotal` | frontend/src/routes/Income.jsx:155 | the chart's amounts add up to the page total computed by `reduce` (`totalIncome`; `totalExpense` at Expense.jsx line 143 is the same reduce) |
| `Chart.EmptyChartIffNoRecords` | frontend/src/routes/Expense.jsx:289 | the chart is empty (the "No … data available" branch) exactly when there are no records, and then the total is 0 |
| `Forms.SubmitIncome` | frontend/src/routes/Income.jsx:93-104 | submission is blocked, with no request, exactly when source, amount or date is empty; otherwise the post carries the typed source, date and icon and `parseFloat` of the amount |
| `Forms.SubmitExpense` | frontend/src/routes/Expense.jsx:81-92 | the same with category |
| `Forms.HandleAddIncome` | frontend/src/routes/Income.jsx:90-119 | a successful add resets the form to empty source and amount, today's date and the 💰 icon; a blocked or failed add keeps what was typed |
| `Forms.HandleAddExpense` | frontend/src/routes/Expense.jsx:78-107 | a successful add resets the form to empty category and amount, today's date and the 💸 icon; a blocked or failed add keeps the form |
| `Forms.SentIncomePassesServerCheckIffAmount` | frontend/src/routes/Income.jsx:93-103 | a body the page lets through passes the server's field check exactly when its parsed amount is truthy |
| `Forms.SentExpensePassesServerCheckIffAmount` | frontend/src/routes/Expense.jsx:81-91 | the same for expenses |
| `Forms.ResetIncomeFormIsBlocked` | frontend/src/routes/Income.jsx:107-112 | the reset income form would be blocked if submitted as it is |
| `Forms.ResetExpenseFormIsBlocked` | frontend/src/routes/Expense.jsx:95-100 | the reset expense form would be blocked if submitted as it is |
| `Forms.ZeroIncomeIsRefusedByServer` | frontend/src/routes/Income.jsx:93-101 | an amount of "0" passes the page's check, the server answers 500, and the form is not reset |
| `Forms.ZeroExpenseIsRefusedByServer` | frontend/src/routes/Expense.jsx:81-89 | the same for expenses |
| `Forms.SentIncomeIsRecorded` | frontend/src/routes/Income.jsx:98-104 | a sent form with a non-zero amount and a castable date becomes exactly one record of the caller with the typed fields |
| `Forms.SentExpenseIsRecorded` | frontend/src/routes/Expense.jsx:86-92 | the same for expenses |

## Left out

- **MongoDB, Mongoose, Express and the HTTP layer.** Queries and aggregations are functions over sequences in store order. A failing store call is a boolean, or a set of failing dashboard reads. How Express renders a thrown `ApiError` is not modelled; the model stops at the thrown status and message. A thrown value that is not an `ApiError` is `Crash`, a 500.
- **Ordering of equal dates.** MongoDB does not fix the order of records with equal dates under `.sort({date: -1})`. The model uses a stable sort, so equal dates keep store order.
- **The users model file.** `backend/src/models/user.model.js` is not part of this model. Its required fields, unique indexes and pre-save hashing are unknown. Registration assumes that an absent email or password fails at creation with a 500 and that creation otherwise succeeds. A username clash after lower-casing (`Session.DuplicateCheckIsCaseSensitive`) is therefore not refused at creation in the model.
- **Lookups on absent fields.** A `{username: undefined}` lookup is assumed to match no user.
- **Cryptography.** JWT signing is out: a token is a subject plus a serial number, unique per issue. Verifying, expiry and password hashing are out too; `jwt.verify` and `isPasswordCorrect` are parameters. Real JWTs issued for the same user within the same second can be identical; the serial stands in for the freshness the rotation needs.
- **`generateAccessToken` / `generateRefreshToken`.** Their payloads and lifetimes are in the users model file, which is not part of this model.
- **The access-token middleware.** The middleware that sets `req.user` (used by logout and the ledger) is not part of this model. Its result is the `u` parameter.
- **Cloudinary and multer.** The upload is a parameter: whether a file was received, and the URL returned or none.
- **Generated ids.** `Ledger.AddIncome` and `Ledger.AddExpense` take the new record's `_id` as the parameter `freshId` and require that no stored record has it, which is what MongoDB's generated ObjectIds provide.
- **Spreadsheet files.** Writing the xlsx file and `res.download` are out. Only the row mapping is modelled, with `toDateString` as a parameter.
- **Clock.** `Date.now()` is read twice in the dashboard handler; the model uses one `now`.
- **`Promise.all`.** It is modelled as two sequential reads.
- **Concurrency.** Concurrent requests are out, including two refreshes racing past the equality check. The semantics are sequential.
- **Numbers.** Floating-point amounts are out; amounts are integers. `parseFloat` is a parameter. `NaN` from `parseFloat` is an absent amount, as its JSON `null`.
- `Ledger.CheckEntry`: request bodies are typed, with `amount` a number and every other field a string. The handler reads untyped JSON, so a body with the string amount `"0"` is not expressible: that string is truthy, passes `!amount` (income.controller.js line 12, expense.controller.js line 12), and is cast to the number 0 by the schema, so a record with amount 0 is stored. In the model, amount 0 is always refused.
- `Session.Vet`: the register fields are typed as strings. A non-string field such as `{"email": 5}` makes `field?.trim()` (user.controller.js line 27) throw a `TypeError`, which is a 500. No such input exists in the model.
- **Locale dates in the chart.** Formatting and parsing are parameters (`labelOf`, `rank`). A label that parses to `Invalid Date` (which makes the comparator return `NaN`) is not modelled.
- **Page and client glue.** React rendering, toasts, axios, the AI assistant and the routers are out.
- `JsString.ToLower`: maps only the ASCII capitals, while `toLowerCase` maps every Unicode capital. Usernames outside ASCII are therefore stored unchanged in the model.
- `Session.Register`: the duplicate lookup `findOne` (user.controller.js line 32) and the read-back `findById` (line 59) are assumed to answer. A failing lookup would be a 500 from the error handler, and a read-back that finds nothing would be the 500 "Something went erong while registering user" after the user was created; neither is modelled.
- `Session.Login`: the lookup `findOne` (line 83) and the read-back `findById` (line 101) are assumed to answer. A failing lookup would be a 500 with the store unchanged. A failing read-back would be a 500 after the slot was already rotated, so that failed login would change the store; this case is not modelled.
- `Session.Rotate`: store failures are modelled at the save inside token issuance only. The preceding `findById` is assumed to answer; its failure would also be a 401 with the driver's message.

## Findings

| source | as written | input that shows it | evidently intended | confidence | as-written member | corrected member |
|---|---|---|---|---|---|---|
| backend/src/controllers/income.controller.js:53-56 | `findByIdAndDelete` is given the filter object `{_id, userId}` where an id is expected; Mongoose uses only its `_id`, so the owner condition is dropped | user 2 deletes income 7 of user 1: it is removed and the reply is "Income deleted successfully" | only the caller's own income with that id is deleted | not executed | `Ledger.CrossUserIncomeDelete` | `Ledger.DeleteIncomeOwned` |
| backend/src/controllers/expense.controller.js:54-57 | the same id-only delete for expenses | user 2 deletes expense 7 of user 1: it is removed | only the caller's own expense with that id is deleted | not executed | `Ledger.CrossUserExpenseDelete` | `Ledger.DeleteExpenseOwned` |
| backend/src/controllers/user.controller.js:183 | the helper returns `{accessToken, refreshToken}` but the caller destructures `newRefreshToken`, which is `undefined`: the `refreshToken` cookie is set to the string "undefined" and the JSON body omits the key, while the slot holds the new token | any successful refresh; the next refresh presents the "undefined" cookie (or no token at all) and is refused with 401 | the reply carries the rotated refresh token | not executed | `Session.RefreshChainBreaks` | `Session.FixedRefreshChains` |
