# Gigios Finance — a Dafny model of its core

Gigios Finance is a personal-finance web application. Signed-in users record income,
expenses and investments against a fixed catalog of categories. They see a dashboard of
the current month's totals and a six-month chart, browse their history grouped by month,
and keep a profile. This project models the parts of the application that decide what
is stored, computed and shown, and proves properties about them:

- the category catalog and its lookups (`Categories`);
- the dashboard statistics handler, with its totals, its chart buckets keyed by month
  abbreviation, and its per-category expense breakdown (`DashboardStats`);
- the history page's month grouping, toggling, emoji, colour and sign helpers
  (`TransactionHistory`);
- the API handlers for transactions, sign-up, onboarding and the profile
  (`TransactionsRoute`, `RegisterRoute`, `OnboardingRoute`, `ProfileRoute`), and the
  database they change (`Store.Database`, which inserts or rewrites rows and keeps ids,
  emails and usernames unique);
- the client forms: sign-up (`RegisterPage`), onboarding (`OnboardingPage`), profile
  (`ProfilePage`), the dialog that adds a transaction (`AddTransactionDialog.Dialog`) and
  the dialog that edits one (`TransactionDialog.Dialog`);
- the environment check (`Env`) and the client-side route guard (`AuthProvider`).

Shared modules hold the value types (`Wrappers`, `Json`, `Ledger`, `Calendar`) and the
JavaScript built-ins the code relies on (`Numbers` for `toString`, `parseInt` and
`parseFloat`; `Strings` for `trim`, `split`, `join`, `includes` and `toUpperCase`;
`Seqs` for `filter`, `sort` and `take`).

Conventions:

- **Amounts.** Amounts are whole numbers of cents. `Numbers.ParseCents` is the
  `parseFloat` of an amount typed as digits with up to two decimals.
- **Request bodies.** A field of a JSON body is `Json.Field`: absent, `null`, or a value.
  JavaScript truthiness is written out by the `Json.Truthy*` predicates.
- **Sessions.** A session is the signed-in user's id, or their e-mail for the statistics
  handler.
- **Handlers.** A handler answers a `Wrappers.Reply`: a success with its status and value,
  or a failure with its status and error message.
- **Inputs.** The clock, the password hash and the ids of new rows are inputs. A new id
  must not already be in use.

## Model

| member | source | states |
|---|---|---|
| Categories.TypeName | lib/transaction-categories.ts:5 | a category type is named by one of the three strings the catalog's type union allows |
| Categories.TypeNameInjective | lib/transaction-categories.ts:5 | two types have the same name exactly when they are the same type |
| Categories.FindById | lib/transaction-categories.ts:66-68 | `find` by id: nothing exactly when no entry has the id; otherwise the first entry with that id |
| Categories.CatalogTextsNonEmpty | lib/transaction-categories.ts:9-64 | every catalog entry has a non-empty id and a non-empty emoji |
| Categories.CatalogIdsDistinct | lib/transaction-categories.ts:9-64 | no two catalog entries share an id |
| Categories.LookupOwnId | lib/transaction-categories.ts:66-68 | looking up the id of any catalog entry returns that very entry |
| Categories.OtherIsUnknown | lib/transaction-categories.ts:9-68 | `"other"` is not the id of any catalog entry |
| Categories.GetCategoriesByType | lib/transaction-categories.ts:70-72 | a category is in the result exactly when it is in the catalog and has that type; the result keeps catalog order: income gives the first two entries, expense the next three, investment the last two |
| Categories.CatalogByTypeInOrder | lib/transaction-categories.ts:9-72 | filtering the catalog by a type yields exactly that type's contiguous block of the catalog, in order |
| Categories.ByTypePartition | lib/transaction-categories.ts:70-72 | the three per-type filters of any list together contain each entry exactly once |
| Categories.CatalogPartition | lib/transaction-categories.ts:9-72 | the income, expense and investment lists together are the whole catalog, as a multiset |
| Json.OrNull | app/api/auth/register/route.ts:52 | `x \|\| null` for a stored string: a value exactly when the field is a non-empty string, and then that string |
| Json.NonEmptyOrNull | app/onboarding/page.tsx:80-81 | `s \|\| null` sends `null` exactly for the empty string, and otherwise the string itself |
| Json.FromOption | components/transactions/add-transaction-dialog.tsx:94 | a number that does not parse (`NaN`) is serialised as `null`; a parsed one as its value |
| Numbers.ParseIntOfIntToString | app/profile/page.tsx:46-76 | `parseInt` reads back every integer from its `toString`, negative ones included |
| Numbers.ParseCentsOfShowCents | app/api/transactions/route.ts:57 | `parseFloat` reads back every amount of cents from its decimal text |
| Calendar.IndexInjective | app/api/dashboard/stats/route.ts:54-73 | two months with the same month count are the same month |
| Calendar.SubMonths | app/api/dashboard/stats/route.ts:54-73 | `subMonths(d, n)` lands exactly `n` months earlier, across year boundaries |
| Calendar.DayOrdinalOrder | app/api/transactions/route.ts:17 | ordering by date puts an earlier month first, and orders days within a month |
| Calendar.FormatMMMSameMonth | app/api/dashboard/stats/route.ts:74-79 | two months share an `"MMM"` label exactly when they are the same month of the year |
| Calendar.FormatMMMInWindow | app/api/dashboard/stats/route.ts:72-81 | within a span of fewer than twelve months, equal `"MMM"` labels mean the same month |
| Strings.Trim | components/transactions/add-transaction-dialog.tsx:69 | `trim()` is a slice of the text with only whitespace cut from each end; it is empty exactly when the text is blank, otherwise it starts and ends with non-whitespace |
| Strings.JoinHasParts | lib/env.ts:25 | a joined list contains each of its parts as a substring |
| Strings.Split | app/profile/page.tsx:108 | `split(" ")` gives at least one piece and no piece contains a space |
| Strings.JoinSplit | app/profile/page.tsx:108 | joining the pieces of a split with the separator gives back the text |
| Strings.ToUpper | app/profile/page.tsx:106-108 | `toUpperCase` keeps the length and maps each character through the letter mapping |
| Strings.UpperChar | app/profile/page.tsx:106-108 | lower-case ASCII letters become their capitals; any other character is unchanged |
| Seqs.FilterMembers | app/api/dashboard/stats/route.ts:39-49 | `filter` keeps exactly the elements that pass the test |
| Seqs.SortDesc | app/transactions/page.tsx:105 | sorting descending gives a permutation of the input whose keys never increase |
| Seqs.Take | app/api/transactions/route.ts:18 | `take: n` is the first `n` elements, or all of them when there are fewer |
| Ledger.SumAmountsAppend | app/api/dashboard/stats/route.ts:39-49 | summing amounts distributes over concatenation |
| Ledger.TotalOfSnoc | app/api/dashboard/stats/route.ts:39-49 | adding a transaction raises its own type's total by its amount and no other total |
| Ledger.TotalOfAppend | app/api/dashboard/stats/route.ts:39-49 | a type's total over two lists is the sum of the two totals |
| Ledger.TotalsPartitionAmounts | app/api/dashboard/stats/route.ts:39-51 | the three type totals plus the amounts of any other type make up all the amounts, each once |
| Ledger.FindUserByEmail | app/api/dashboard/stats/route.ts:15-21 | the lookup by e-mail finds nothing exactly when no user has the e-mail, and otherwise a user with it |
| Ledger.IndexOfUser | app/api/user/profile/route.ts:14-15 | the lookup by id finds nothing exactly when no row has the id; otherwise the first row with it |
| DashboardStats.SeedLabels | app/api/dashboard/stats/route.ts:72-76 | the chart is seeded with six month labels |
| DashboardStats.SeedLabelsDistinct | app/api/dashboard/stats/route.ts:72-76 | the six seeded labels are pairwise different, so six buckets exist |
| DashboardStats.MonthlySeries | app/api/dashboard/stats/route.ts:109-114 | the chart always has six points |
| DashboardStats.Credit | app/api/dashboard/stats/route.ts:82-88 | a transaction of a known type adds its amount to its bucket; one of any other type leaves the bucket unchanged |
| DashboardStats.BucketOfSnoc | app/api/dashboard/stats/route.ts:78-90 | a bucket after one more transaction is the bucket credited with it when the labels match, else unchanged |
| DashboardStats.SeedBuckets | app/api/dashboard/stats/route.ts:72-76 | the seeding loop creates exactly the six labels, each with zero totals |
| DashboardStats.FillBuckets | app/api/dashboard/stats/route.ts:78-90 | the filling loop leaves each seeded bucket holding the totals of the transactions labelled with it |
| DashboardStats.MonthlyData | app/api/dashboard/stats/route.ts:70-90 | the seeding and filling loops produce exactly the six-point chart specification |
| DashboardStats.BucketIsCalendarMonth | app/api/dashboard/stats/route.ts:54-90 | bucket `k` collects exactly the user's transactions dated in the month `5 - k` months before now |
| DashboardStats.LastBucketMatchesCurrentMonth | app/api/dashboard/stats/route.ts:28-90 | the chart's last point holds the same three totals as the current-month cards |
| DashboardStats.IgnoredTransaction | app/api/dashboard/stats/route.ts:78-90 | a transaction outside the seeded months, or of an unknown type, does not change the chart |
| DashboardStats.CategoryOrder | app/api/dashboard/stats/route.ts:93-102 | the categories of the breakdown are listed without repetition |
| DashboardStats.CategoryOrderMembers | app/api/dashboard/stats/route.ts:93-102 | a category is listed exactly when some transaction is filed under it |
| DashboardStats.CategoryBreakdown | app/api/dashboard/stats/route.ts:115-118 | the breakdown has one point per distinct expense category |
| DashboardStats.CategoryTotalSnoc | app/api/dashboard/stats/route.ts:99-100 | one more expense raises its own category's total by its amount and no other category's total |
| DashboardStats.NoneInCategory | app/api/dashboard/stats/route.ts:99-100 | a category without expenses totals zero |
| DashboardStats.CategoryOrderSnoc | app/api/dashboard/stats/route.ts:93-102 | a new category is appended after the known ones, in first-seen order |
| DashboardStats.ExpensesByCategory | app/api/dashboard/stats/route.ts:93-102 | the loop over the month's expenses yields exactly the breakdown specification |
| DashboardStats.ExpenseSplit | app/api/dashboard/stats/route.ts:43-45 | the expense total splits into the categorised expenses plus the uncategorised ones |
| DashboardStats.BreakdownAccountsForExpenses | app/api/dashboard/stats/route.ts:43-102 | the breakdown's values plus the uncategorised expenses add up to the expense card |
| DashboardStats.BreakdownCategories | app/api/dashboard/stats/route.ts:93-118 | a category appears in the breakdown exactly when some expense is filed under it, and never twice |
| DashboardStats.GetStats | app/api/dashboard/stats/route.ts:7-119 | 401 without a session e-mail and 404 for an unknown user; otherwise the month's totals, the balance, the chart and the breakdown |
| TransactionHistory.MonthLabel | app/transactions/page.tsx:76 | a month's label names the month and then the year |
| TransactionHistory.MonthLabelInjective | app/transactions/page.tsx:74-77 | two months share a label exactly when they are the same month, so the label of a group is as distinct as its `yyyy-MM` key |
| TransactionHistory.Push | app/transactions/page.tsx:90-98 | pushing a transaction appends it and raises only its own type's total |
| TransactionHistory.AccumulatedSnoc | app/transactions/page.tsx:73-99 | one more transaction changes only its own month's card |
| TransactionHistory.AccumulatedMeaning | app/transactions/page.tsx:73-99 | a card built by the loop holds its month's transactions, in input order, with their three type totals |
| TransactionHistory.SettledIsGroupOf | app/transactions/page.tsx:101-103 | setting the balance turns the loop's card into the month's full card |
| TransactionHistory.MonthsOfSnoc | app/transactions/page.tsx:78-88 | one more transaction adds its month to the months that have cards |
| TransactionHistory.MonthsOfOccur | app/transactions/page.tsx:78-88 | a month has a card exactly when some transaction falls in it |
| TransactionHistory.AccumulatedAbsent | app/transactions/page.tsx:78-88 | a month with no transactions has only the empty starting card |
| TransactionHistory.Accumulate | app/transactions/page.tsx:73-99 | the loop builds one card per month that occurs, holding exactly that month's accumulation |
| TransactionHistory.SettleBalances | app/transactions/page.tsx:101-103 | the balance loop keeps the same months and settles each card |
| TransactionHistory.SortedCards | app/transactions/page.tsx:105 | sorted cards are newest month first, each one its month's card, with a card for every transaction's month |
| TransactionHistory.GroupByMonth | app/transactions/page.tsx:70-106 | the cards are newest first, each is its month's full and non-empty card, and every transaction's month has one |
| TransactionHistory.OneCardPerTransaction | app/transactions/page.tsx:70-106 | every transaction is on exactly one card, the card of its own month |
| TransactionHistory.CardKeepsInputOrder | app/transactions/page.tsx:90 | a card lists its transactions in the order they were fetched |
| TransactionHistory.CardTotals | app/transactions/page.tsx:92-103 | a card's totals account for its amounts, and its balance is income less expenses and investments |
| TransactionHistory.ToggleMonth | app/transactions/page.tsx:110-120 | toggling flips the membership of that month only |
| TransactionHistory.ToggleTwice | app/transactions/page.tsx:110-120 | toggling a month twice restores the expanded set |
| TransactionHistory.GetCategoryEmoji | app/transactions/page.tsx:129-133 | no category or an unknown one shows 💰; the emoji is never empty |
| TransactionHistory.CatalogEmoji | app/transactions/page.tsx:129-133 | every catalog category shows its own emoji |
| TransactionHistory.EmojiOfFound | app/transactions/page.tsx:129-133 | a category that the lookup finds shows its own emoji |
| TransactionHistory.GetTypeColor | app/transactions/page.tsx:135-146 | income is `text-green-400`, expense `text-red-400`, investment `text-blue-400`; the colour is empty exactly for any other type |
| TransactionHistory.AmountSign | app/transactions/page.tsx:269 | expenses are shown with `-` and every other type with `+` |
| TransactionsRoute.ListTransactions | app/api/transactions/route.ts:7-26 | the list fails with 401 exactly when there is no session, and succeeds with 200 otherwise |
| TransactionsRoute.ListOwned | app/api/transactions/route.ts:15-19 | every listed transaction is one of the user's own |
| TransactionsRoute.ListLatestFirst | app/api/transactions/route.ts:17 | the list is ordered latest date first |
| TransactionsRoute.ListSize | app/api/transactions/route.ts:18 | the list has fifty of the user's transactions, or all of them when there are fewer |
| TransactionsRoute.ListIsLatest | app/api/transactions/route.ts:15-19 | a transaction of the user that is left out is no later than any transaction listed |
| TransactionsRoute.NewTransaction | app/api/transactions/route.ts:54-64 | the record takes its title and type from the category, and the rest from the body and session |
| TransactionsRoute.PostTransaction | app/api/transactions/route.ts:28-71 | 401 without a session, 400 for a falsy field, 400 for an unknown category; 201 exactly when all three checks pass |
| TransactionsRoute.ClientNameAndTypeIgnored | app/api/transactions/route.ts:37 | the handler's answer does not depend on the name or the type the client sends |
| TransactionsRoute.CreatedRecordMatchesCategory | app/api/transactions/route.ts:54-64 | a created record's title and type are those of the catalog category it names |
| TransactionsRoute.AmountOnlyTruthiness | app/api/transactions/route.ts:39 | an amount of zero is refused as incomplete, while a negative amount is accepted |
| RegisterRoute.RegisterGuard | app/api/auth/register/route.ts:10-39 | 400 for a missing field, then for a taken e-mail, then for a taken username; it passes exactly when none applies |
| RegisterRoute.EmailCheckedFirst | app/api/auth/register/route.ts:18-39 | when both the e-mail and the username are taken, the e-mail error is the one reported |
| RegisterRoute.NewUser | app/api/auth/register/route.ts:45-57 | the new row has the body's fields, the hash as password, the full name, a phone only when truthy, verified now, and onboarding done |
| RegisterRoute.CreatedReply | app/api/auth/register/route.ts:59-69 | the answer is a 201 with the fixed message and the row's id, e-mail and name |
| RegisterRoute.CreatedReplyShowsFullName | app/api/auth/register/route.ts:53-65 | the answer to a sign-up shows `"first last"` as the name |
| OnboardingRoute.OnboardingGuard | app/api/user/onboarding/route.ts:10-22 | 401 without a session and 400 when either name is falsy; it passes exactly otherwise |
| OnboardingRoute.Onboarded | app/api/user/onboarding/route.ts:24-33 | the row gets both names, the full name, the phone or none, and onboarding done; every other column is kept |
| OnboardingRoute.AgeAndAddressIgnored | app/api/user/onboarding/route.ts:15 | the age and address that the form sends have no effect on the row |
| OnboardingRoute.OnboardedIdempotent | app/api/user/onboarding/route.ts:24-33 | submitting the same onboarding twice leaves the row as one submission does |
| ProfileRoute.Project | app/api/user/profile/route.ts:14-27 | the profile shows exactly the nine selected columns of the row |
| ProfileRoute.ProjectionHidesSecrets | app/api/user/profile/route.ts:16-26 | two rows that agree on the selected columns show the same profile, whatever their password, username or flags |
| ProfileRoute.GetProfile | app/api/user/profile/route.ts:6-38 | 401 without a session, 404 for an unknown id; otherwise 200 with the user's own row projected |
| ProfileRoute.ApplyField | app/api/user/profile/route.ts:53-58 | an absent field keeps the column, `null` clears it, and a value replaces it |
| ProfileRoute.FullNameField | app/api/user/profile/route.ts:59 | the full name is written only when both names are truthy, and then as `"first last"` |
| ProfileRoute.UpdatedProfile | app/api/user/profile/route.ts:51-61 | the five editable columns and the name follow the body; id, e-mail, username, password, image and flags are kept |
| ProfileRoute.EmptyUpdateKeepsRow | app/api/user/profile/route.ts:51-61 | an empty body leaves the row as it was |
| ProfileRoute.NameRule | app/api/user/profile/route.ts:59 | the name changes only when both names are truthy, and is then `"first last"` |
| ProfileRoute.UpdateIdempotent | app/api/user/profile/route.ts:51-61 | applying the same update twice equals applying it once |
| ProfileRoute.ProfileGuard | app/api/user/profile/route.ts:44-46 | the update passes exactly when there is a session, and otherwise fails with 401 |
| Store.UniqueAfterInsert | app/api/auth/register/route.ts:18-57 | inserting a user with an unused id, e-mail and username keeps the table unique |
| Store.UniqueAfterUpdate | app/api/user/profile/route.ts:51-61 | rewriting a row with the same id, e-mail and username keeps the table unique |
| Store.RegisterTwiceRefused | app/api/auth/register/route.ts:18-27 | after a successful sign-up, the same body is refused because the e-mail is taken |
| Store.Database.PostTransaction | app/api/transactions/route.ts:28-71 | the answer is the handler's, and the table grows by the created record exactly when it succeeds |
| Store.Database.Register | app/api/auth/register/route.ts:5-69 | a refusal changes nothing; a pass appends exactly the new user and answers 201; uniqueness is kept |
| Store.Database.CompleteOnboarding | app/api/user/onboarding/route.ts:7-40 | a refusal or a missing row changes nothing; otherwise only the session's row is rewritten |
| Store.Database.UpdateProfile | app/api/user/profile/route.ts:40-68 | 401 or a missing row changes nothing; otherwise only the session's row is rewritten |
| OnboardingPage.WithInput | app/onboarding/page.tsx:35-37 | an input's change replaces its own field and no other |
| OnboardingPage.FirstNameError | app/onboarding/page.tsx:49-51 | the first-name error is shown exactly when the trimmed name is empty |
| OnboardingPage.LastNameError | app/onboarding/page.tsx:53-55 | the last-name error is shown exactly when the trimmed name is empty |
| OnboardingPage.Payload | app/onboarding/page.tsx:76-82 | the body carries the names as typed, the age parsed or `null`, and the phone and address or `null` |
| OnboardingPage.PayloadAgeRoundTrip | app/onboarding/page.tsx:79 | an age typed as an integer's digits is sent as that integer |
| OnboardingPage.ValidPayloadAccepted | app/onboarding/page.tsx:43-82 | a body the form lets through passes the onboarding handler's checks whenever there is a session |
| OnboardingPage.Redirect | app/onboarding/page.tsx:27-33 | signed-out visitors go home, onboarded users go to the dashboard, and everyone else stays |
| OnboardingPage.OnboardingForm.constructor | app/onboarding/page.tsx:15-25 | the form opens empty, with no errors |
| OnboardingPage.OnboardingForm.HandleChange | app/onboarding/page.tsx:35-41 | the named field is set, and the error of that field is cleared; all other state is kept |
| OnboardingPage.OnboardingForm.ValidateForm | app/onboarding/page.tsx:43-59 | both errors are set afresh, and the result is true exactly when neither name is blank |
| OnboardingPage.OnboardingForm.HandleSubmit | app/onboarding/page.tsx:61-83 | nothing is sent exactly when a name is blank; otherwise the payload is sent |
| RegisterPage.Collect | app/register/page.tsx:16-27 | an issue is reported exactly for each failing rule of the listed fields, with that rule's message |
| RegisterPage.Issues | app/register/page.tsx:16-27 | no issues exactly when every bound holds, the e-mail passes and the passwords agree; otherwise one issue per failing rule |
| RegisterPage.RulesPass | app/register/page.tsx:16-27 | no rule fails exactly when all the schema's conditions hold |
| RegisterPage.SchemaCoversFields | app/register/page.tsx:16-27 | every field of the form is checked by the schema |
| RegisterPage.ErrorFor | app/register/page.tsx:16-27 | a field shows nothing exactly when no issue is on it; otherwise it shows the message of an issue on it |
| RegisterPage.FieldErrors | app/register/page.tsx:16-27 | each field shows its own rule's message exactly when that rule fails; a mismatch is shown under the confirmation, and the phone never shows an error |
| RegisterPage.Payload | app/register/page.tsx:48-55 | the body leaves out the confirmation, and sends the phone as `null` when it is missing or empty |
| RegisterPage.ValidFormHasRequired | app/register/page.tsx:48-55 | a form without issues sends every field the sign-up handler requires, and the stored phone is the typed one |
| RegisterPage.AfterReply | app/register/page.tsx:72-94 | a refusal shows `error`, else `details`, else the fixed message, and stays; a success signs in and navigates |
| RegisterPage.RefusalShown | app/register/page.tsx:72-73 | a refusal by the sign-up handler is shown with the handler's own message |
| ProfilePage.Loaded | app/profile/page.tsx:42-49 | the loaded form shows each column, or `""` when it is missing, and the age as text |
| ProfilePage.AfterFetch | app/profile/page.tsx:36-56 | a successful fetch replaces the form with the loaded data, and a failure keeps the form |
| ProfilePage.WithInput | app/profile/page.tsx:58-61 | an input's change replaces its own field, and never the e-mail |
| ProfilePage.Payload | app/profile/page.tsx:73-79 | the body carries the names, the age parsed or `null`, and the phone and address or `null` |
| ProfilePage.EmailNotSent | app/profile/page.tsx:73-79 | the e-mail shown on the form has no effect on the body |
| ProfilePage.SaveUnchangedKeepsRow | app/profile/page.tsx:36-91 | loading a profile and saving it untouched leaves a well-formed row unchanged |
| ProfilePage.MissingNameSavedEmpty | app/profile/page.tsx:43-74 | a row without a first name gets `""` stored for it when saved untouched |
| ProfilePage.Heads | app/profile/page.tsx:108 | there is at most one initial per word; when no word is empty, the result is exactly the first letter of each word, in order |
| ProfilePage.Initials | app/profile/page.tsx:105-109 | both names give their capitalised first letters; with neither names nor a session name it is `"U"`; never more than two |
| ProfilePage.InitialsOfTwoWords | app/profile/page.tsx:107-108 | a two-word session name gives the capitalised first letters of both words |
| ProfilePage.InitialsOfManyWords | app/profile/page.tsx:107-108 | a session name of three or more words gives the capitalised first letters of the first two words only |
| ProfilePage.InitialsOfOneWord | app/profile/page.tsx:107-108 | a one-word session name gives its capitalised first letter |
| AddTransactionDialog.OtherCategory | components/transactions/add-transaction-dialog.tsx:251 | "Sem Categoria" selects the synthetic `"other"` category, named "Outro", of the chosen type |
| AddTransactionDialog.SuccessEmoji | components/transactions/add-transaction-dialog.tsx:109 | the toast shows the category's emoji, else 💵, 📊 or 💸 by type; it is never empty |
| AddTransactionDialog.Dialog.constructor | components/transactions/add-transaction-dialog.tsx:33-38 | the dialog opens empty on today's date |
| AddTransactionDialog.Dialog.SelectType | components/transactions/add-transaction-dialog.tsx:53-56 | choosing a type always drops the chosen category; all other state is kept |
| AddTransactionDialog.Dialog.SelectCategory | components/transactions/add-transaction-dialog.tsx:58-59 | choosing a category keeps the type and the other fields |
| AddTransactionDialog.Dialog.SelectNoCategory | components/transactions/add-transaction-dialog.tsx:251 | "Sem Categoria" selects the `"other"` category of the chosen type |
| AddTransactionDialog.Dialog.ClearCategory | components/transactions/add-transaction-dialog.tsx:283 | the close button drops the category only |
| AddTransactionDialog.Dialog.Back | components/transactions/add-transaction-dialog.tsx:201-205 | "Voltar" forgets the type, the category and the name, and keeps amount, method and date |
| AddTransactionDialog.Dialog.SetName | components/transactions/add-transaction-dialog.tsx:216 | the name input sets the name only |
| AddTransactionDialog.Dialog.SetAmount | components/transactions/add-transaction-dialog.tsx:300 | the amount input sets the amount only |
| AddTransactionDialog.Dialog.SetMethod | components/transactions/add-transaction-dialog.tsx:311 | the method input sets the method only |
| AddTransactionDialog.Dialog.SetDate | components/transactions/add-transaction-dialog.tsx:343 | the date picker sets the date only |
| AddTransactionDialog.Dialog.FilteredCategories | components/transactions/add-transaction-dialog.tsx:129 | no categories are offered before a type is chosen, then exactly the catalog entries of that type in catalog order (the first two for income, the next three for expense, the last two for investment) |
| AddTransactionDialog.Dialog.Payload | components/transactions/add-transaction-dialog.tsx:90-97 | the body has the trimmed name, the category id or `"other"`, the type, the parsed amount or `null`, the method or `"pix"`, and the date |
| AddTransactionDialog.Dialog.HandleSave | components/transactions/add-transaction-dialog.tsx:68-127 | an incomplete form or a missing token sends nothing; otherwise the payload is sent; 401 signs out, other failures fail, success toasts and resets; only success changes the state |
| AddTransactionDialog.Dialog.Reset | components/transactions/add-transaction-dialog.tsx:115-120 | after a save the dialog is back in its opening state, on today's date |
| AddTransactionDialog.NoCategoryRefused | components/transactions/add-transaction-dialog.tsx:92 | a body without a real category carries `"other"`, which the handler refuses as an invalid category |
| AddTransactionDialog.NoCategorySendsOther | components/transactions/add-transaction-dialog.tsx:92-95 | a missing or synthetic category sends `"other"`, and the method sent is never empty |
| AddTransactionDialog.CatalogBodyAccepted | app/api/transactions/route.ts:39-64 | a complete body naming a catalog category is stored with that category's name and type |
| AddTransactionDialog.CatalogCategoryAccepted | components/transactions/add-transaction-dialog.tsx:90-97 | a catalog category with a non-zero parsed amount is accepted; the stored title is the category's name, not the typed name |
| TransactionDialog.InitialForm | components/transactions/transaction-dialog.tsx:47-54 | the form opens with the transaction's fields, `""` for missing ones, and the amount as text; a new transaction opens empty |
| TransactionDialog.InitialDate | components/transactions/transaction-dialog.tsx:46 | the date is the transaction's date, else today |
| TransactionDialog.HasChangesAsWritten | components/transactions/transaction-dialog.tsx:93-105 | as written: a transaction without a category or investment type always reports changes |
| TransactionDialog.UntouchedReportsChangesAsWritten | components/transactions/transaction-dialog.tsx:101-102 | an untouched dialog for an uncategorised transaction reports unsaved changes, as written |
| TransactionDialog.HasChanges | components/transactions/transaction-dialog.tsx:93-105 | a new transaction has changes exactly when the title or amount is set; an existing one exactly when the form or date differs from the opening state |
| TransactionDialog.UntouchedHasNoChanges | components/transactions/transaction-dialog.tsx:46-105 | the dialog as it opens reports no changes, for a new or an existing transaction |
| TransactionDialog.AsWrittenAgreesWhenPresent | components/transactions/transaction-dialog.tsx:101-102 | when both optional fields are present, the written and the corrected test agree |
| TransactionDialog.WithKind | components/transactions/transaction-dialog.tsx:147-152 | changing the type keeps the investment type only for `"investment"`, and keeps every other field |
| TransactionDialog.InvestmentTypeOnlyForInvestments | components/transactions/transaction-dialog.tsx:147-152 | after a type change, an investment type is set only on an investment |
| TransactionDialog.Dialog.constructor | components/transactions/transaction-dialog.tsx:42-54 | the dialog opens with the initial form and date, and every flag off |
| TransactionDialog.Dialog.HandleSave | components/transactions/transaction-dialog.tsx:56-60 | the confirmation opens when title, amount and type are all set; nothing else changes |
| TransactionDialog.Dialog.ConfirmSave | components/transactions/transaction-dialog.tsx:62-83 | the confirmation and the dialog close, and the form is kept |
| TransactionDialog.Dialog.HandleCancel | components/transactions/transaction-dialog.tsx:85-91 | as written: when the source's change test reports changes the alert opens and the dialog stays; otherwise the dialog closes |
| TransactionDialog.Dialog.HandleCancelCorrected | components/transactions/transaction-dialog.tsx:85-91 | the same cancel with the corrected change test |
| TransactionDialog.Dialog.SetKind | components/transactions/transaction-dialog.tsx:147-152 | the type select applies the type rule to the form, and nothing else changes |
| TransactionDialog.Dialog.SetTitle | components/transactions/transaction-dialog.tsx:126 | the title input sets the title only |
| TransactionDialog.Dialog.SetAmount | components/transactions/transaction-dialog.tsx:137 | the amount input sets the amount only |
| TransactionDialog.Dialog.SetMethod | components/transactions/transaction-dialog.tsx:189 | the method select sets the method only |
| TransactionDialog.Dialog.SetCategory | components/transactions/transaction-dialog.tsx:209 | the category select sets the category only |
| TransactionDialog.Dialog.SetInvestmentType | components/transactions/transaction-dialog.tsx:171 | the investment-type select sets the investment type only |
| TransactionDialog.Dialog.SetDate | components/transactions/transaction-dialog.tsx:248 | the date picker sets the date only |
| TransactionDialog.SaveEnabledIffFillable | components/transactions/transaction-dialog.tsx:56-60 | while not loading, the save button is enabled exactly when saving would ask for confirmation |
| TransactionDialog.CancelUntouched | components/transactions/transaction-dialog.tsx:85-105 | as written, cancelling a freshly opened dialog closes it without the alert when it is a new transaction or one with both a category and an investment type |
| TransactionDialog.CancelUntouchedAlerts | components/transactions/transaction-dialog.tsx:85-105 | as written, cancelling a freshly opened dialog for a transaction lacking a category or an investment type opens the alert and keeps the dialog open |
| TransactionDialog.CancelUntouchedCorrected | components/transactions/transaction-dialog.tsx:85-105 | with the corrected test, cancelling any freshly opened dialog closes it without the alert |
| Env.MissingOf | lib/env.ts:17-21 | a name is missing exactly when it is listed and unset or empty |
| Env.RequiredMissingInOrder | lib/env.ts:3-21 | the missing required names are reported in declaration order |
| Env.Validate | lib/env.ts:14-44 | it throws exactly when a required name is unset, with a message joining the missing names; outside production it warns exactly when an optional name is unset |
| Env.OptionalNeverThrows | lib/env.ts:31-43 | setting an optional variable never decides whether validation throws |
| Env.MessageNamesMissing | lib/env.ts:23-28 | the thrown message names every missing required variable |
| Env.CollectUnset | lib/env.ts:15-21 | the loop collects exactly the unset names, in order |
| Env.ValidateEnv | lib/env.ts:14-44 | the imperative validation computes exactly the specified outcome |
| Env.ModuleLoad | lib/env.ts:47-53 | in production nothing runs; otherwise the validation's warning is logged, or its error is caught and logged |
| AuthProvider.GuardRedirect | components/auth-provider.tsx:12-21 | no token on a private route goes home, a token on a public route goes to the dashboard, and otherwise it stays |
| AuthProvider.PublicRoutesExactly | components/auth-provider.tsx:6 | the public routes are exactly `"/"` and `"/register"` |
| AuthProvider.RedirectSettles | components/auth-provider.tsx:12-21 | after one redirect, the guard does not redirect again |

## Left out

- Framework and I/O plumbing is not modelled: sessions, `fetch`, JSON parsing, `localStorage`, the router, toasts, alerts, console logging and React rendering. The token, the session, the reply status and each navigation are inputs or outcome values instead.
- The ORM is modelled only by the table contents in `Store.Database`. `findMany` is a filter, a sort and a `take`. The ids the ORM generates are inputs, and the callers must pass ids not in use.
- `bcrypt.hash` is an opaque `passwordHash` input. `new Date()` is a `now` or `today` input.
- Dates have no time of day or time zone, and no date-string parsing. Months are a (year, month) pair. The pt-BR and `"MMM"` month names are constant tables.
- Ties in the sort order of the transaction list and of the history cards are not fixed. The sort is specified by its keys and by being a permutation.
- Floating point is not modelled. Amounts are integer cents, and `Numbers.ParseCents` reads only `[-]digits[.d[d]]`. Any other text parses as `NaN`, which is sent as `null`.
- `Object.entries` is assumed to give insertion order. This holds for the month abbreviations and for the category ids of the catalog. Integer-like keys would be listed first.
- The 500 answers from thrown exceptions are left out, except for the update of a missing row. The model answers 500 for that one.
- `RegisterPage.Issues` takes the zod e-mail check as an `isEmail` parameter, and counts lengths in characters rather than in UTF-16 code units.
- `Strings.UpperChar` upper-cases ASCII letters only.
- `ProfilePage.Initials` models `n[0]` of an empty word (two spaces in a row) as contributing nothing, as `join("")` of `undefined` does.
- The loading and saving flags of the pages are not modelled. Neither are the session effect of the profile page and its sign-out, or the navigation after a successful onboarding submit.
- `TransactionHistory.MonthLabel` writes the year with plain decimal digits; date-fns `yyyy` pads years below 1000 to four digits, which the model does not.
- `TransactionDialog.HasChanges` compares dates by value. The source compares `Date` objects by reference: choosing the same day again in the picker counts as a change there, but not in the model.
- `TransactionDialog.Dialog.ConfirmSave` does not model the request: the source only logs it after a one-second delay. The delete dialog is not modelled.
- Amounts in `TransactionDialog` are whole numbers shown as their decimal text. Fractional amounts are not modelled there.
- `AddTransactionDialog.Dialog.HandleSave` does not model the `API_URL` choice or the request headers. A thrown `fetch` is not modelled either.

## Findings

| source | as written | input that shows it | evidently intended | confidence | as-written member | corrected member |
|---|---|---|---|---|---|---|
| components/transactions/transaction-dialog.tsx:101-102 | `hasChanges` compares the form's `category` and `investmentType`, which start as `""` when the transaction lacks them, with the transaction's fields, which are then `undefined` | an untouched dialog for a transaction without a category, e.g. `{title "Mercado", amount 120, type "expense", method "pix"}`: cancelling shows the unsaved-changes alert | compare with the values the form was initialised with (`transaction.category \|\| ""`), so that an untouched dialog closes | not executed | TransactionDialog.HasChangesAsWritten, TransactionDialog.UntouchedReportsChangesAsWritten, TransactionDialog.CancelUntouchedAlerts | TransactionDialog.HasChanges, TransactionDialog.UntouchedHasNoChanges, TransactionDialog.CancelUntouchedCorrected |
