# Personal finance app: a verified model of its core logic

This project models the small, sequential pieces of logic in the personal finance apps (the React Native clients and their FastAPI back ends) and proves what they do. Dates are integers: day numbers and millisecond or second instants. Money is an integer.

On the clients, it models:
- the session store, its mirror in AsyncStorage, and the HTTP client's two interceptors that feed it;
- the amount keypad of the bottom sheet;
- the transactions list's tab filter, newest-first sort and day grouping;
- the analytics screen's date windows, query parameters and state changes;
- the login screen's remember-me protocol;
- the register, add-transaction, add-card and add-category forms.

On the servers, it models:
- the categories, transactions, wallets and users tables, each with its ownership and delete rules;
- the register, login and current-user decisions;
- the recurring-transactions job;
- the summary and category-breakdown reports.

Modules follow the program's files:

| module | file | models |
|---|---|---|
| `Session`, `Storage`, `Json` | `session.dfy`, `storage.dfy`, `json.dfy` | the auth store, AsyncStorage as a class over a `map<string, string>`, and the JSON text of the stored user |
| `ApiClient` | `api_client.dfy` | the request and response interceptors over one shared store |
| `AmountKeypad` | `amount_keypad.dfy` | `handleKeyPress` and the rendered keys |
| `TransactionList`, `Seqs` | `transaction_list.dfy`, `seqs.dfy` | `filteredTransactions` (a stable descending sort, as `Array.prototype.sort` is) and the `groupedTransactions` loop |
| `Analytics`, `Calendar` | `analytics.dfy`, `calendar.dfy` | the `dateRange` memo on a proleptic Gregorian calendar, `queryFn`'s parameters and the screen's handlers |
| `LoginForm`, `RegisterForm`, `AddTransactionForm`, `AddCardForm`, `AddCategoryForm`, `Numbers` | one file each | validation, payloads and state changes; `parseInt`/`parseFloat` on text |
| `CategoriesCrud`, `TransactionsCrud`, `WalletsCrud`, `UsersCrud`, `Models` | one file each | each table is a class holding a `seq` of rows and the next id |
| `AuthRouter` | `auth_router.dfy` | register, login and `get_current_user`, with the password hash, its check and JWT encoding/decoding as function parameters |
| `Scheduler` | `scheduler.dfy` | `process_recurring_transactions` as a loop over the task table |
| `Reports` | `reports.dfy` | the report window, `get_summary` and `get_category_breakdown` |

Calls the model cannot see are parameters:
- the clock;
- the password hash and JWT functions;
- `toLocaleDateString` (a day label for each instant);
- `datetime.fromisoformat`;
- the server replies to the forms' requests;
- the image picker's result.

Behaviour of the code worth noting, which the model follows:
- `setAvatar` with no stored user does not fail. `JSON.parse(null)` is `null`, and spreading it gives an object holding only `avatar_url`.
- The request interceptor checks the truthiness of both the token and any existing `Authorization` header. `initialize` checks the truthiness of both stored items, so an empty string counts as missing.
- `setAuth` is not atomic. It makes three storage writes in turn and then sets the state.
- Overlapping 401 handlers can interleave at each `await`. A second one may still see the store authenticated and run `logout` again. Because `logout` only removes keys and clears the state, the end state is that of one logout (`Session.LogoutForgetsSession`). `ApiClient.TwoExpiredResponses` states the sequential case.
- Registering a taken email in the users table is refused. This follows the `unique=True` email column (ETBackend/app/models/models.py:22), not a check in `create_user`.

## Model

| member | source | states |
|---|---|---|
| AddCardForm.OptionalDay | ETFrontend/src/screens/wallets/AddCardScreen.jsx:48-49 | an empty bill or due day is sent as null; a typed one as what `parseInt` reads from it |
| AddCardForm.AmountOrZero | ETFrontend/src/screens/wallets/AddCardScreen.jsx:50 | the additional charges are the number `parseFloat` reads, or 0 when it reads none |
| AddCardForm.HandleSave | ETFrontend/src/screens/wallets/AddCardScreen.jsx:31-51 | a missing name, last-4 or limit gives the fill-in alert; otherwise a last-4 not exactly four characters long gives the length alert; a payload is built exactly when name and limit are given and last-4 has length 4, and it is a credit card with balance 0 carrying the name, the last 4, the parsed limit, the two optional days and the charges |
| AddCardForm.Last4IsNotCheckedForDigits | ETFrontend/src/screens/wallets/AddCardScreen.jsx:37-40 | any four characters pass the length check and are sent unchanged, four letters included: the alert's "4 numbers" is not enforced |
| AddCardForm.TypedDayIsSent | ETFrontend/src/screens/wallets/AddCardScreen.jsx:48 | a bill day typed as the decimal text of a number is sent as that number |
| AddCardForm.AfterSave | ETFrontend/src/screens/wallets/AddCardScreen.jsx:53-61 | success shows the card-added alert; a failure shows the server's detail, or "Failed to add card" when there is none |
| AddCategoryForm.InitialType | ETFrontend/src/screens/categories/AddCategoryScreen.jsx:21-23 | the edited category's type if it has one, else the route's type if truthy, else expense |
| AddCategoryForm.InitialIcon | ETFrontend/src/screens/categories/AddCategoryScreen.jsx:24 | the edited category's icon if it has one, else `tag` |
| AddCategoryForm.InitialName | ETFrontend/src/screens/categories/AddCategoryScreen.jsx:22 | the edited category's name, else empty |
| AddCategoryForm.ColorFor | ETFrontend/src/screens/categories/AddCategoryScreen.jsx:41 | green exactly for income, red for every other type |
| AddCategoryForm.HandleSave | ETFrontend/src/screens/categories/AddCategoryScreen.jsx:31-45 | an empty name is refused with an alert; creating sends the data alone; editing sends the edited category's id with the data; editing without a category fails reading its id |
| AddCategoryForm.UnchangedEditSavesSameCategory | ETFrontend/src/screens/categories/AddCategoryScreen.jsx:18-45 | opening a category for editing and saving it untouched updates that category with its own name, type, icon and matching colour |
| AddCategoryForm.AfterSave | ETFrontend/src/screens/categories/AddCategoryScreen.jsx:47-55 | success shows "Category updated!" or "Category added!"; a failure shows the server's detail or "Failed to update/add category" |
| AddTransactionForm.FilteredCategories | ETFrontend/src/screens/transactions/AddTransactionScreen.jsx:35 | nothing while no categories are loaded; otherwise exactly the loaded categories of the current type |
| AddTransactionForm.KeptReceiptUrl | ETFrontend/src/screens/transactions/AddTransactionScreen.jsx:76 | the receipt url saved without an upload is the edited transaction's, or empty when creating |
| AddTransactionForm.SaveRequest | ETFrontend/src/screens/transactions/AddTransactionScreen.jsx:85-101 | an update of the edited id exactly when editing, else an add; the payload carries the type, parsed amount, note, category and receipt url; the date is the edited transaction's own when it has one, and now when creating or when the edited date is empty |
| AddTransactionForm.SaveOutcomeCases | ETFrontend/src/screens/transactions/AddTransactionScreen.jsx:69-110 | one press shows exactly one alert and sends at most one request; incomplete fields send nothing; a newly picked receipt is uploaded first and a refused upload stops the save with its error; otherwise one request carries the uploaded url or the kept one and the alert reports the server's answer |
| AddTransactionForm.AddTransactionScreen.constructor | ETFrontend/src/screens/transactions/AddTransactionScreen.jsx:19-28 | the form starts from the edited transaction, each falsy field replaced by its default and the amount shown as the decimal text of the stored number; an existing receipt is marked as already uploaded |
| AddTransactionForm.AddTransactionScreen.SelectType | ETFrontend/src/screens/transactions/AddTransactionScreen.jsx:163-170 | a type button sets the type and clears the chosen category, and nothing else |
| AddTransactionForm.AddTransactionScreen.SelectCategory | ETFrontend/src/screens/transactions/AddTransactionScreen.jsx:206 | choosing a category sets it and nothing else |
| AddTransactionForm.AddTransactionScreen.SetAmount | ETFrontend/src/screens/transactions/AddTransactionScreen.jsx:185 | typing sets the amount text and nothing else |
| AddTransactionForm.AddTransactionScreen.SetDescription | ETFrontend/src/screens/transactions/AddTransactionScreen.jsx:239 | typing sets the note and nothing else |
| AddTransactionForm.AddTransactionScreen.OpenPicker | ETFrontend/src/screens/transactions/AddTransactionScreen.jsx:224 | the upload button opens the picker and changes nothing else |
| AddTransactionForm.AddTransactionScreen.HandleImageResult | ETFrontend/src/screens/transactions/AddTransactionScreen.jsx:37-52 | a cancel changes nothing; an error code shows the picker's message or "Failed to pick image" and keeps the picker open; otherwise the picker closes and the first asset, if any, becomes a new not-uploaded receipt named by its file name or `receipt.jpg` |
| AddTransactionForm.AddTransactionScreen.HandleSave | ETFrontend/src/screens/transactions/AddTransactionScreen.jsx:69-111 | the alerts, uploads and requests grow by exactly what `SaveOutcome` gives for the form's values and the server's replies; the busy flag is off again after any save that passed validation; the form fields are untouched |
| AddTransactionForm.EditKeepsReceipt | ETFrontend/src/screens/transactions/AddTransactionScreen.jsx:19-98 | editing a transaction with a stored receipt and a stored amount uploads nothing and sends one update with the edited id, that same amount (read back from its `toString` text), the stored receipt url, and the original date, or now when it has none |
| AmountKeypad.PressKey | Vaulto/src/components/AddTransactionBottomSheet.jsx:11-19 | `C` resets to "0"; `back` drops exactly the last character of an amount longer than one character and gives "0" otherwise; any other key replaces exactly a lone "0" and is appended to every other amount; a non-empty amount and key never give an empty amount |
| AmountKeypad.BackUndoesPress | Vaulto/src/components/AddTransactionBottomSheet.jsx:14-17 | pressing a one-character key and then `back` restores the amount |
| AmountKeypad.PointsAreNotRejected | Vaulto/src/components/AddTransactionBottomSheet.jsx:16-49 | a point is accepted as the first key and again after another point, so "..", not a number, can be typed |
| AmountKeypad.ClearIsUnreachable | Vaulto/src/components/AddTransactionBottomSheet.jsx:12-49 | `C` is not among the rendered keys; every rendered key is one character or `back` |
| AmountKeypad.KeypadAmountsAreNumeric | Vaulto/src/components/AddTransactionBottomSheet.jsx:9-49 | any sequence of rendered keys keeps the amount a non-empty string of digits and points |
| AmountKeypad.AmountSheet.constructor | Vaulto/src/components/AddTransactionBottomSheet.jsx:9 | the amount starts as "0" |
| AmountKeypad.AmountSheet.HandleKeyPress | Vaulto/src/components/AddTransactionBottomSheet.jsx:11-19 | the amount becomes `PressKey` of the old amount, and stays non-empty for a non-empty key |
| RegisterForm.HandleRegister | Vaulto/src/screens/auth/RegisterScreen.jsx:15-24 | refused exactly when a field is empty or the passwords differ, with the fill-in alert taking precedence; otherwise the payload is name, email and password |
| RegisterForm.MismatchNeedsAllFields | Vaulto/src/screens/auth/RegisterScreen.jsx:16-23 | the mismatch alert appears exactly when every field is filled and the passwords differ |
| RegisterForm.ConfirmationIsNotSent | Vaulto/src/screens/auth/RegisterScreen.jsx:24 | two accepted forms that differ only in the confirmation send the same payload |
| RegisterForm.AfterRegister | Vaulto/src/screens/auth/RegisterScreen.jsx:25-33 | navigation to Login happens exactly on success; a failure shows the server's detail or "An error occurred" |
| Analytics.FullYear | ETFrontend/src/screens/analytics/AnalyticsDashboardScreen.jsx:58-59 | the `Date` constructor reads a year of 0-99 as 1900-1999 and every other year as itself |
| Analytics.ParseIsoDate | ETFrontend/src/screens/analytics/AnalyticsDashboardScreen.jsx:65-66 | a custom date is read only from `YYYY-MM-DD` text naming a real day of a real month |
| Analytics.IsoDateText | ETFrontend/src/screens/analytics/AnalyticsDashboardScreen.jsx:47-48 | the date part of an ISO string is ten characters with dashes at positions 4 and 7 |
| Analytics.ParseIsoDateText | ETFrontend/src/screens/analytics/AnalyticsDashboardScreen.jsx:47-66 | reading back the date part of an ISO string gives the date it came from, for every real date of years 0-9999 |
| Analytics.MonthWindow | ETFrontend/src/screens/analytics/AnalyticsDashboardScreen.jsx:57-59 | the month tab's window starts at local midnight on the 1st and ends one second before the month's last day is over |
| Analytics.MonthWindowsAbut | ETFrontend/src/screens/analytics/AnalyticsDashboardScreen.jsx:57-59 | the next month's window starts one second after this month's ends, December to January included |
| Analytics.NextStartIsEndPlusSecond | ETFrontend/src/screens/analytics/AnalyticsDashboardScreen.jsx:58-59 | when two months are consecutive days apart, their windows are one second apart |
| Analytics.LocalMidnight | ETFrontend/src/screens/analytics/AnalyticsDashboardScreen.jsx:58 | local midnight of a month's first day is that day's number times a day, shifted by the offset |
| Analytics.YearWindow | ETFrontend/src/screens/analytics/AnalyticsDashboardScreen.jsx:60-62 | the year tab's window runs from local January 1 of the current year to now |
| Analytics.YearWindowIsOrdered | ETFrontend/src/screens/analytics/AnalyticsDashboardScreen.jsx:60-62 | for a real clock reading the year window never ends before it starts |
| Analytics.CustomWindow | ETFrontend/src/screens/analytics/AnalyticsDashboardScreen.jsx:63-67 | a window exactly when both texts are dates; the start is UTC midnight of the start date and the end is 23:59:59 local time of the end date; otherwise the `toISOString` RangeError |
| Analytics.DateRange | ETFrontend/src/screens/analytics/AnalyticsDashboardScreen.jsx:52-76 | month, year and custom periods give their windows; "all" and any unknown period give two nulls |
| Analytics.BuildParams | ETFrontend/src/screens/analytics/AnalyticsDashboardScreen.jsx:81-94 | the query always holds the period and holds each bound exactly when it is not null, and nothing else |
| Analytics.AnalyticsScreen.constructor | ETFrontend/src/screens/analytics/AnalyticsDashboardScreen.jsx:40-50 | the screen opens on the month tab at the current month and year, with both dialogs closed; the applied and pending ranges are the `YYYY-MM-DD` texts of the UTC dates of local midnight on the 1st and of now, and each text reads back as its date |
| Analytics.AnalyticsScreen.EditTempStart | ETFrontend/src/screens/analytics/AnalyticsDashboardScreen.jsx:269 | typing the start date changes only the pending range's start |
| Analytics.AnalyticsScreen.EditTempEnd | ETFrontend/src/screens/analytics/AnalyticsDashboardScreen.jsx:280 | typing the end date changes only the pending range's end |
| Analytics.AnalyticsScreen.DismissCustomModal | ETFrontend/src/screens/analytics/AnalyticsDashboardScreen.jsx:253-259 | closing the custom dialog leaves the applied and pending ranges and the period alone |
| Analytics.AnalyticsScreen.DismissMonthPicker | ETFrontend/src/screens/analytics/AnalyticsDashboardScreen.jsx:299-313 | closing the month picker keeps the year its chevrons moved to |
| Analytics.AnalyticsScreen.ApplyCustom | ETFrontend/src/screens/analytics/AnalyticsDashboardScreen.jsx:104-108 | applying copies the pending range into the applied one, closes the dialog and selects the custom period |
| Analytics.AnalyticsScreen.SelectMonth | ETFrontend/src/screens/analytics/AnalyticsDashboardScreen.jsx:110-114 | choosing a month selects it, closes the picker and selects the month period; the year stays |
| Analytics.AnalyticsScreen.PreviousYear | ETFrontend/src/screens/analytics/AnalyticsDashboardScreen.jsx:305 | the left chevron moves the selected year back by one and changes nothing else |
| Analytics.AnalyticsScreen.NextYear | ETFrontend/src/screens/analytics/AnalyticsDashboardScreen.jsx:309 | the right chevron moves the selected year on by one and changes nothing else |
| Analytics.AnalyticsScreen.PressTab | ETFrontend/src/screens/analytics/AnalyticsDashboardScreen.jsx:140-151 | the custom tab only opens its dialog; the month tab opens the picker when already selected and otherwise selects the month period; any other tab becomes the period |
| Analytics.AnalyticsScreen.PressBadge | ETFrontend/src/screens/analytics/AnalyticsDashboardScreen.jsx:122-127 | the header badge opens the month picker on the month period and the custom dialog on the custom period, and does nothing else |
| Calendar.DaysInMonth | ETFrontend/src/screens/analytics/AnalyticsDashboardScreen.jsx:59 | months have 28-31 days; February has 29 exactly in Gregorian leap years; April, June, September and November have 30 |
| Calendar.YearLength | ETFrontend/src/screens/analytics/AnalyticsDashboardScreen.jsx:58-61 | consecutive January firsts are 365 days apart, 366 when the year is leap, and that is the sum of the months |
| Calendar.DayZeroIsLastDay | ETFrontend/src/screens/analytics/AnalyticsDashboardScreen.jsx:59 | day 0 of the following month, as the month-tab end date uses it, is the last day of the selected month, December included |
| Calendar.NextMonthFollows | ETFrontend/src/screens/analytics/AnalyticsDashboardScreen.jsx:58-59 | the first of the next month is the day after the last of this month |
| Calendar.NextMonthStart | ETFrontend/src/screens/analytics/AnalyticsDashboardScreen.jsx:58-59 | the next month, December rolling into January of the next year, starts as many days after this month's first as this month has |
| Calendar.EpochAnchors | ETFrontend/src/screens/analytics/AnalyticsDashboardScreen.jsx:47-58 | day numbers count from 1970-01-01: 2000-01-01 is day 10957 and 2024-02-29 is day 19782 |
| ApiClient.ErrorDetail | ETFrontend/src/screens/transactions/AddTransactionScreen.jsx:107 | an alert shows the server's `detail` when it is truthy and the screen's fallback otherwise, so it is never empty |
| ApiClient.WithBearer | ETFrontend/src/services/api.js:12-18 | `Bearer <token>` is added only when the token is truthy and no truthy Authorization header is there; other headers are kept |
| ApiClient.OnlyExpiredSessionsLogOut | ETFrontend/src/services/api.js:36-40 | a 401 on a login URL, any other status, or an anonymous store never forces a logout |
| ApiClient.LoginUrlNeverLogsOut | ETFrontend/src/services/api.js:33-36 | whatever surrounds `/auth/login` in the URL, its 401 never logs out |
| ApiClient.RequestConfig.constructor | ETFrontend/src/services/api.js:12 | a request configuration holds its URL and headers |
| ApiClient.Client.constructor | ETFrontend/src/services/api.js:5-10 | the client reads the one session store |
| ApiClient.Client.InterceptRequest | ETFrontend/src/services/api.js:12-21 | the token is read from the store at send time and the headers become `WithBearer` of the old ones; the same configuration is returned |
| ApiClient.Client.InterceptResponse | ETFrontend/src/services/api.js:26-47 | a success passes through; an error is always handed back unchanged, after a full logout exactly when it is a 401 off the login URL while authenticated, and with storage and store untouched otherwise |
| ApiClient.TwoExpiredResponses | ETFrontend/src/services/api.js:36-46 | two expired-session errors in a row log out once, leave the store anonymous, and are both rejected |
| AuthRouter.Register | ETBackend/app/routers/auth.py:14-19 | a taken email gives 400 "Email already registered" and no new row; otherwise one user with that email and the hashed password is appended |
| AuthRouter.Login | ETBackend/app/routers/auth.py:21-32 | 401 "Incorrect email or password" exactly when the email is unknown or the password does not verify; otherwise bearer access and refresh tokens for that email |
| AuthRouter.CurrentUser | ETBackend/app/routers/auth.py:34-50 | a user exactly when the token decodes, has a subject, and a user has that email, and then it is that user; every failure is 401 "Could not validate credentials" |
| AuthRouter.LoginTokenIdentifiesUser | ETBackend/app/routers/auth.py:30-50 | the access token login issues resolves back to the user who logged in |
| AuthRouter.RegisterThenLogin | ETBackend/app/routers/auth.py:14-32 | after a successful registration, logging in with the same password succeeds with tokens for that email |
| CategoriesCrud.Overwrite | VaultoBackend/app/crud/categories.py:31-32 | every payload field is set and the id and owner stay |
| CategoriesCrud.CategoryTable.constructor | VaultoBackend/app/crud/categories.py:1-5 | a table of rows with distinct ids below the next id |
| CategoriesCrud.CategoryTable.GetCategories | VaultoBackend/app/crud/categories.py:7-10 | exactly the caller's and the system categories, in table order |
| CategoriesCrud.CategoryTable.CreateCategory | VaultoBackend/app/crud/categories.py:12-20 | the payload, owned by the caller, is appended under a fresh id |
| CategoriesCrud.CategoryTable.GetCategory | VaultoBackend/app/crud/categories.py:22-24 | the row with that id when the caller may see it (own or system), `None` exactly when there is none |
| CategoriesCrud.CategoryTable.UpdateCategory | VaultoBackend/app/crud/categories.py:26-37 | `None` and no change exactly when the caller owns no row with that id; otherwise that row alone is overwritten and returned |
| CategoriesCrud.CategoryTable.DeleteCategory | VaultoBackend/app/crud/categories.py:39-47 | true exactly when the caller owns a row with that id, which is then removed and no row with that id remains; otherwise false and no change |
| CategoriesCrud.IdsAreUnique | VaultoBackend/app/crud/categories.py:39-47 | with distinct ids the row found is the only one with its id |
| CategoriesCrud.SystemRowsAreReadOnly | VaultoBackend/app/crud/categories.py:26-42 | no user owns a system category, so none can update or delete it |
| Json.Put | Vaulto/src/store/authStore.js:16 | the spread sets the one property, keeps every other one, and keeps keys distinct |
| Json.Stringify | Vaulto/src/store/authStore.js:11-17 | the text is enclosed in braces |
| Json.ParseStringify | Vaulto/src/store/authStore.js:11-30 | what `JSON.stringify` writes for a stored user, `JSON.parse` reads back unchanged |
| LoginForm.RememberWrites | Vaulto/src/screens/auth/LoginScreen.jsx:42-50 | remember-me on stores the email, the password and "true"; off removes both and stores "false"; every other key is kept |
| LoginForm.Restored | Vaulto/src/screens/auth/LoginScreen.jsx:20-34 | only a stored flag of exactly "true" changes the form, then turning remember-me on; a field changes only to a non-empty saved value |
| LoginForm.RememberedLoginRestores | Vaulto/src/screens/auth/LoginScreen.jsx:20-50 | after a remembered login, reopening the screen from any field values shows the same credentials with remember-me on |
| LoginForm.ForgottenLoginRestoresNothing | Vaulto/src/screens/auth/LoginScreen.jsx:20-50 | after a login without remember-me the saved credentials are gone and reopening restores nothing |
| LoginForm.LoginScreen.constructor | Vaulto/src/screens/auth/LoginScreen.jsx:10-13 | the form opens empty with the password hidden and remember-me off |
| LoginForm.LoginScreen.SetEmail | Vaulto/src/screens/auth/LoginScreen.jsx:78 | typing sets the email and nothing else |
| LoginForm.LoginScreen.SetPassword | Vaulto/src/screens/auth/LoginScreen.jsx:88 | typing sets the password and nothing else |
| LoginForm.LoginScreen.ToggleRemember | Vaulto/src/screens/auth/LoginScreen.jsx:106 | the checkbox flips remember-me and nothing else |
| LoginForm.LoginScreen.ToggleShowPassword | Vaulto/src/screens/auth/LoginScreen.jsx:94 | the eye icon flips password visibility and nothing else |
| LoginForm.LoginScreen.LoadStoredCredentials | Vaulto/src/screens/auth/LoginScreen.jsx:20-34 | the fields become `Restored` of the stored items and the old fields; storage is only read |
| LoginForm.LoginScreen.HandleLogin | Vaulto/src/screens/auth/LoginScreen.jsx:36-52 | an empty field alerts and touches neither storage nor the server; otherwise the remember-me writes happen and then one login request with the email and password is sent |
| LoginForm.LoginScreen.LoginRejected | Vaulto/src/screens/auth/LoginScreen.jsx:53-55 | a rejected login alerts the server's detail or "An error occurred" |
| LoginForm.RememberedLoginScenario | Vaulto/src/screens/auth/LoginScreen.jsx:16-57 | a remembered login followed by a fresh screen over the same storage shows the same credentials |
| Models.TypeName | ETBackend/app/models/models.py:7-10 | each transaction type has its own stored name: income, expense, transfer |
| Session.NameFromEmail | Vaulto/src/hooks/useAuth.js:21 | the name is the part of the email before its first `@`, or all of it |
| Session.LoginUser | Vaulto/src/hooks/useAuth.js:21 | the user handed to `setAuth` has the email and the derived name and no avatar |
| Session.SetAuthWrites | Vaulto/src/store/authStore.js:9-11 | the three session keys hold the access token, the refresh token and the user's JSON; every other key is kept |
| Session.LogoutWrites | Vaulto/src/store/authStore.js:21-23 | exactly the three session keys are removed |
| Session.StoredSession | Vaulto/src/store/authStore.js:27-30 | a session is restored only when both keys hold non-empty text and the user text parses, and then it is that user and token |
| Session.AvatarUpdate | Vaulto/src/store/authStore.js:15-16 | the stored user with `avatar_url` set and every other property kept; a missing user gives an object with only the avatar; unparsable text throws |
| Session.RestoreAfterSetAuth | Vaulto/src/store/authStore.js:8-32 | `initialize` after `setAuth` restores that user and token exactly, when the token is non-empty |
| Session.LogoutForgetsSession | Vaulto/src/store/authStore.js:20-32 | after `logout` nothing is restored, and a second `logout` changes nothing |
| Session.AuthStore.constructor | Vaulto/src/store/authStore.js:5-7 | the store starts anonymous |
| Session.AuthStore.SetAuth | Vaulto/src/store/authStore.js:8-13 | storage becomes `SetAuthWrites` of the old storage and the store is authenticated with that user and access token |
| Session.AuthStore.SetAvatar | Vaulto/src/store/authStore.js:14-19 | when the stored user parses (or is missing), storage and the in-memory user become the updated user; otherwise nothing changes; authentication and token are kept |
| Session.AuthStore.Logout | Vaulto/src/store/authStore.js:20-25 | storage loses exactly the three session keys and the store is anonymous |
| Session.AuthStore.Initialize | Vaulto/src/store/authStore.js:26-32 | the stored session, when there is one, becomes the store's state; otherwise the state is kept |
| Session.RestartRestoresSession | Vaulto/src/store/authStore.js:8-32 | logging in, restarting with a fresh store over the same storage and initializing restores the user and token |
| Storage.KeyValueStore.constructor | Vaulto/src/store/authStore.js:2 | the store holds the given items |
| Storage.KeyValueStore.SetItem | Vaulto/src/store/authStore.js:9 | the key now maps to the value; nothing else changes |
| Storage.KeyValueStore.GetItem | Vaulto/src/store/authStore.js:15 | the stored value, or null for a missing key |
| Storage.KeyValueStore.RemoveItem | Vaulto/src/store/authStore.js:21 | exactly that key is gone; removing a missing key changes nothing |
| Reports.FirstOfMonthNotAfterNow | VaultoBackend/app/routers/reports.py:25-26 | for a real clock reading, the first of the current month at midnight is not after it and lies less than `day` days before it |
| Reports.DefaultWindowHoldsNow | VaultoBackend/app/routers/reports.py:21-30 | with no dates and any period but `all` the window has no end and opens at the start of the current month, at most `day` days before the clock reading |
| Reports.ReportWindow | VaultoBackend/app/routers/reports.py:21-30 | a server error exactly when a given start or end does not parse; a given start wins, else the first of the month unless the period is `all` (a missing period counts as this month); the end bound only when given |
| Reports.TypeGroups | VaultoBackend/app/routers/reports.py:33-43 | one group row per type, each holding the sum of that type's counted rows: the caller's, not deleted, inside the window |
| Reports.TypeGroupsCover | VaultoBackend/app/routers/reports.py:43-50 | a type without a group row has a total of 0 |
| Reports.GetSummary | VaultoBackend/app/routers/reports.py:45-56 | income and expenses are the sums of the counted rows of their type, 0 when there are none; transfers count in neither; the balance is their difference |
| Reports.Joined | VaultoBackend/app/routers/reports.py:80-91 | the join gives exactly one row for each of the caller's counted expenses whose category row exists, and none for any other transaction |
| Reports.JoinedMembers | VaultoBackend/app/routers/reports.py:80-91 | a row is joined exactly when some transaction is the caller's counted expense with an existing category, and the row carries that category's name and icon and the transaction's amount |
| Reports.JoinedAmountFor | VaultoBackend/app/routers/reports.py:80-94 | the joined amount under a name-and-icon key is the sum of the caller's counted expenses whose category has that key |
| Reports.JoinedTotal | VaultoBackend/app/routers/reports.py:80-100 | the joined rows total the caller's counted expenses that have a category row |
| Reports.AddTo | VaultoBackend/app/routers/reports.py:94 | adding a row to the groups leaves at least one group |
| Reports.AddToKeys | VaultoBackend/app/routers/reports.py:94 | adding a row keeps one group per key and adds the row's key |
| Reports.AddToAmount | VaultoBackend/app/routers/reports.py:94 | adding a row raises only its own key's total, by its amount, and the grand total likewise |
| Reports.GroupRowsSums | VaultoBackend/app/routers/reports.py:94 | grouping by name and icon keeps every key's total and the grand total |
| Reports.GroupRowsKeys | VaultoBackend/app/routers/reports.py:94 | grouping gives exactly one group per name-and-icon key of the joined rows |
| Reports.BreakdownRows | VaultoBackend/app/routers/reports.py:93-96 | the groups come largest amount first |
| Reports.GetCategoryBreakdown | VaultoBackend/app/routers/reports.py:98-114 | the total spent is the sum of every joined expense, that is of the caller's counted expenses that have a category; one entry per group, in descending amount, each category once, each with its share of the total or 0 when the total is not positive |
| Reports.BreakdownRowsFacts | VaultoBackend/app/routers/reports.py:93-100 | the breakdown rows total what the joined rows total and name each category key of the joined rows exactly once |
| Reports.BreakdownAmount | VaultoBackend/app/routers/reports.py:80-96 | each category's breakdown amount is the sum of its joined rows, which is the sum of the caller's counted expenses under that category's name and icon |
| Reports.SortKeepsKeys | VaultoBackend/app/routers/reports.py:95 | ordering by amount keeps the keys and keeps them distinct |
| Reports.SortKeepsAmounts | VaultoBackend/app/routers/reports.py:95 | ordering by amount does not change any key's total |
| Scheduler.IntervalDays | ETBackend/app/utils/scheduler.py:36-44 | daily, weekly, monthly and yearly mean 1, 7, 30 and 365 days, and no other frequency has an interval |
| Scheduler.RecurringNote | ETBackend/app/utils/scheduler.py:30 | the note starts with "Recurring: " followed by the template's note when it has one |
| Scheduler.Spawn | ETBackend/app/utils/scheduler.py:25-32 | the new transaction copies the template's owner, category, type and amount, carries the recurring note, is dated now, has no receipt and is not deleted |
| Scheduler.Rescheduled | ETBackend/app/utils/scheduler.py:36-44 | a known frequency moves the next run to now plus its interval, counted from now; an unknown one leaves the task unchanged |
| Scheduler.ProcessTask | ETBackend/app/utils/scheduler.py:13-44 | a task that is not due, or whose template is missing, changes nothing; a due task with a template adds one spawned transaction and is rescheduled |
| Scheduler.ProcessPrefixRows | ETBackend/app/utils/scheduler.py:18-33 | after any number of tasks the existing transactions are unchanged, at most one is added per task, and each added one has the next id, is dated now, not deleted and carries the recurring note |
| Scheduler.ProcessTaskRows | ETBackend/app/utils/scheduler.py:20-33 | one task adds at most one transaction, after the existing ones, with the next free id |
| Scheduler.ProcessPrefixTasks | ETBackend/app/utils/scheduler.py:13-44 | every task is kept or, when due, rescheduled; a task that is not due is kept |
| Scheduler.RecurringTable.constructor | ETBackend/app/utils/scheduler.py:13-16 | the table holds the given tasks |
| Scheduler.ProcessRecurring | ETBackend/app/utils/scheduler.py:10-46 | the job leaves the tasks and the transactions table exactly as processing every task in order does, keeping transaction ids distinct |
| Scheduler.RunTask | ETBackend/app/utils/scheduler.py:18-44 | the loop body changes only its own task, and that task and the transactions table as `ProcessTask` says |
| Scheduler.ProcessPrefixStep | ETBackend/app/utils/scheduler.py:18 | processing one more task extends the processed tasks by that task's result |
| Scheduler.AppendFreshId | ETBackend/app/utils/scheduler.py:33 | a row with the table's next id keeps ids distinct and below the next id |
| Scheduler.UnknownFrequencyStaysDue | ETBackend/app/utils/scheduler.py:36-44 | a due task with an unknown frequency is still due afterwards, so every later run spawns another transaction |
| Scheduler.KnownFrequencyIsNotDueAgain | ETBackend/app/utils/scheduler.py:36-44 | a task with a known frequency is not due again at the same instant |
| Seqs.Filter | ETFrontend/src/screens/transactions/TransactionsListScreen.jsx:44 | the kept elements are exactly those of the input that satisfy the predicate |
| Seqs.FilterMultiset | ETFrontend/src/screens/transactions/TransactionsListScreen.jsx:44 | filtering keeps every occurrence of a kept element and none of a dropped one |
| Seqs.FindFirst | VaultoBackend/app/crud/categories.py:24 | the index of the first element satisfying the predicate, none exactly when no element does |
| Seqs.SortDescSorted | ETFrontend/src/screens/transactions/TransactionsListScreen.jsx:47 | the sort puts larger keys first |
| Seqs.SortDescMultiset | ETFrontend/src/screens/transactions/TransactionsListScreen.jsx:47 | the sort is a permutation |
| Seqs.SortDescIsStable | ETFrontend/src/screens/transactions/TransactionsListScreen.jsx:47 | the sort is stable: elements with equal keys keep their order |
| Seqs.SumBySortDesc | VaultoBackend/app/routers/reports.py:95-100 | sorting does not change a sum |
| TransactionList.Kept | ETFrontend/src/screens/transactions/TransactionsListScreen.jsx:42-45 | the all tab keeps everything; any other tab keeps exactly the transactions of its type |
| TransactionList.FilteredTransactions | ETFrontend/src/screens/transactions/TransactionsListScreen.jsx:40-48 | nothing without data; otherwise a permutation of the tab's transactions, newest first, with transactions of the same date in their original order |
| TransactionList.FilteredMembership | ETFrontend/src/screens/transactions/TransactionsListScreen.jsx:40-48 | a transaction is listed exactly when it is in the data and on the tab, as often as it occurs there |
| TransactionList.OnDayMembers | ETFrontend/src/screens/transactions/TransactionsListScreen.jsx:53-60 | a transaction belongs to the group of its own day label and no other |
| TransactionList.OnDayAppend | ETFrontend/src/screens/transactions/TransactionsListScreen.jsx:59-60 | one more transaction lengthens only its own day's group, at the end |
| TransactionList.GroupExtend | ETFrontend/src/screens/transactions/TransactionsListScreen.jsx:60 | pushing onto an existing day's group keeps the grouping exact |
| TransactionList.GroupOpen | ETFrontend/src/screens/transactions/TransactionsListScreen.jsx:59-60 | opening a new day's group keeps the grouping exact and the day labels distinct |
| TransactionList.OnDayEmpty | ETFrontend/src/screens/transactions/TransactionsListScreen.jsx:59 | a day none of whose transactions has been seen has an empty group |
| TransactionList.GroupedAppend | ETFrontend/src/screens/transactions/TransactionsListScreen.jsx:52-61 | adding a transaction to its day's group keeps every group equal to that day's transactions in order |
| TransactionList.GroupByDay | ETFrontend/src/screens/transactions/TransactionsListScreen.jsx:50-63 | one non-empty group per day label that occurs, holding that day's transactions in list order; every transaction is in its own day's group and no other; the key order lists each day once |
| TransactionList.GroupedFacts | ETFrontend/src/screens/transactions/TransactionsListScreen.jsx:52-61 | a complete grouping puts each transaction in its own day's group and in no other |
| TransactionsCrud.Overwrite | VaultoBackend/app/crud/transactions.py:27-28 | every payload field is set; id, owner and the deleted mark stay |
| TransactionsCrud.TransactionTable.constructor | VaultoBackend/app/crud/transactions.py:1-5 | a table of rows with distinct ids below the next id |
| TransactionsCrud.TransactionTable.GetTransactions | VaultoBackend/app/crud/transactions.py:7-9 | exactly the caller's rows not marked deleted, in table order |
| TransactionsCrud.TransactionTable.CreateTransaction | VaultoBackend/app/crud/transactions.py:11-19 | the payload, owned by the caller and not deleted, is appended under a fresh id; a missing date becomes the insert time, so every created row is dated |
| TransactionsCrud.TransactionTable.UpdateTransaction | VaultoBackend/app/crud/transactions.py:21-32 | `None` and no change exactly when the caller has no row with that id; otherwise that row, even one marked deleted, is overwritten and returned |
| TransactionsCrud.TransactionTable.DeleteTransaction | VaultoBackend/app/crud/transactions.py:34-41 | true exactly when the caller has a row with that id, which is then only marked deleted; no row is removed and no other field changes |
| TransactionsCrud.DeleteTwice | VaultoBackend/app/crud/transactions.py:34-41 | a deleted transaction is no longer listed, and deleting it again still answers true and leaves the table as the first delete left it |
| UsersCrud.UserByEmail | VaultoBackend/app/crud/users.py:7-9 | a user with that email from the table, none exactly when no user has it |
| UsersCrud.SetField | VaultoBackend/app/crud/users.py:28 | setting one field changes that field only; id, email and hash stay |
| UsersCrud.ApplyUpdate | VaultoBackend/app/crud/users.py:24-28 | an update never changes the id, email or password hash |
| UsersCrud.UpdateSetsLastGiven | VaultoBackend/app/crud/users.py:24-28 | each field ends with the last non-None value the update gives it, or keeps its own |
| UsersCrud.AllNoneUpdateIsIdentity | VaultoBackend/app/crud/users.py:26-27 | an update whose values are all None changes nothing |
| UsersCrud.UserTable.constructor | VaultoBackend/app/crud/users.py:1-5 | a table with distinct ids and distinct emails |
| UsersCrud.UserTable.GetUserByEmail | VaultoBackend/app/crud/users.py:7-9 | the user with that email, none exactly when no user has it |
| UsersCrud.UserTable.CreateUser | VaultoBackend/app/crud/users.py:11-22 | a taken email stores nothing; otherwise a user with the email, the name, the hash of the password, and the currency and time zone is appended under a fresh id, a missing currency or time zone becoming "INR" or "UTC" |
| UsersCrud.UserTable.UpdateUser | VaultoBackend/app/crud/users.py:24-31 | the loop leaves the user as `ApplyUpdate` says and changes no other row |
| WalletsCrud.WalletTable.constructor | VaultoBackend/app/crud/wallets.py:1-4 | a table of rows with distinct ids below the next id |
| WalletsCrud.WalletTable.GetWallets | VaultoBackend/app/crud/wallets.py:6-8 | exactly the caller's wallets, in table order |
| WalletsCrud.WalletTable.CreateWallet | VaultoBackend/app/crud/wallets.py:10-18 | the payload, owned by the caller, is appended under a fresh id; missing additional charges become 0 |
| WalletsCrud.WalletTable.GetWallet | VaultoBackend/app/crud/wallets.py:20-22 | the row with that id only when the caller owns it, none exactly when there is no such row |
| WalletsCrud.WalletTable.DeleteWallet | VaultoBackend/app/crud/wallets.py:24-30 | true exactly when the caller owns a row with that id, which is then removed and no row with that id remains; otherwise false and no change |
| Numbers.Decimal | ETFrontend/src/screens/transactions/AddTransactionScreen.jsx:23 | the decimal text of a number is digits without a leading zero |
| Numbers.DigitsOfDecimal | ETFrontend/src/screens/transactions/AddTransactionScreen.jsx:23 | the digits of the decimal text read back as the number |
| Numbers.ParseIntText | ETFrontend/src/screens/wallets/AddCardScreen.jsx:48-49 | `parseInt` reads back the text of every integer |
| Numbers.ParseFloatWholeAgrees | ETFrontend/src/screens/wallets/AddCardScreen.jsx:47-50 | wherever `parseInt` reads a number, `parseFloat` cut to its integer part reads the same one, and it reads NaN only where `parseInt` does |
| Numbers.ParseFloatWholeText | ETFrontend/src/screens/transactions/AddTransactionScreen.jsx:23-85 | `parseFloat` reads back the `toString` text of every integer amount |

## Left out

- JSX rendering, styles, animations, navigation, the split-expense screens and the dashboard, wallet and budget screens: they are presentation and hold no behaviour beyond the rules modelled here.
- React Query hooks and services: these are thin wrappers over the HTTP client. Their replies (success or a `detail` message) are inputs to the forms' after-save members. The one expression kept is the email-prefix name (`Session.NameFromEmail`).
- Console logging and the timing of `await`: each handler is modelled as its sequence of steps, with no interleaving between overlapping handlers.
- Storage, database and network failures: AsyncStorage writes always succeed, and the tables have no commit or rollback. `commit`/`refresh` and `created_at` are not modelled. The column defaults a create relies on (a transaction's date, a user's currency and time zone, a wallet's additional charges) are modelled, following ETBackend/app/models/models.py, which stands in for the Vaulto back end's models.
- The budgets crud, the ETBackend users crud, and the ETFrontend copies of the keypad, login and register screens: each repeats code that is already modelled once.
- The FastAPI routers that only turn a crud `None`/`False` into a 404, and the receipt file upload on the server (uuid names, the filesystem).
- Floating-point amounts: money is an integer. Rounding with `round(percentage, 1)` and `toFixed`/`toLocaleString` is not modelled. `amount.toString()` is modelled for integers only.
- Token expiry and the insides of bcrypt and JWT: they are the function parameters `hash`, `verify`, `encode` and `decode`.
- Time zones: local time is UTC shifted by a constant offset (in milliseconds), with no daylight-saving rules. JavaScript's `Date` range limit (±8.64e15 ms) is not modelled.
- JSON text: `Json.Stringify` does not escape control characters and models string values only, which is what the stored user holds.
- The add-category screen's `isPending` (either mutation in flight) only disables the save button, which is rendering. It is not modelled.
- JavaScript number reading is narrowed in three ways. `parseInt` does not read a `0x` hexadecimal prefix. Only space, tab, `\n` and `\r` count as leading white space, not `\v`, `\f`, U+00A0, U+FEFF or the line separators. A string's length counts characters, not UTF-16 units. The numeric keyboards and `maxLength` of these fields make such input practically unreachable.
- Numbers.ParseFloatWhole: keeps only the integer part that `parseFloat` reads. The fraction and exponent are dropped, and there is no `Infinity`.
- Analytics.ParseIsoDate: reads only `YYYY-MM-DD` text naming a real date. Other text that JavaScript's `Date` would accept counts as an invalid date.
- Analytics.AnalyticsScreen.constructor: takes the UTC calendar dates of the two initial instants (local midnight on the month's first day, and now) as parameters. Converting an instant to its UTC date is not modelled.
- Reports.GetCategoryBreakdown: keeps each percentage as the exact share `part/whole` (`Share`), not rounded to one decimal.
- Reports.BreakdownRows: the database's group order is modelled as first appearance, and ties in `ORDER BY` amount are broken by a stable sort. The database leaves both unspecified.
- The listing queries `get_categories`, `get_transactions` and `get_wallets` have no `ORDER BY`, so the database chooses the row order. The model returns rows in table order: their `Filter` contracts fix an order the source does not promise.
- Reports.ReportWindow: the date parser `parse` is a parameter standing for `datetime.fromisoformat(s.replace('Z', '+00:00'))`, applied to the raw query text; `datetime.utcnow` is a parameter too.
- TransactionList.GroupByDay: the day label that `toLocaleDateString` gives is a parameter, and a transaction's date is its instant in milliseconds, not its ISO text.
