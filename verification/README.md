# Account book: a verified model of the data layer and page logic

This project models the deterministic core of a small bookkeeping web application
(sales, purchases, expenses and assets per signed-in user, viewed per Indian
financial year) and proves what that core promises.

- **SQL builders** (`src/lib/supabase.js`, `src/lib/database.js`). The chainable
  `QueryBuilder` is a class whose methods update its fields (`Supabase.QueryBuilder`).
  `supabase.from(table)` answers a separate entry object (`Supabase.TableEntry`) that offers
  only `select`, `insert`, `update` and `delete`; each sets up the table's new builder
  and hands it on, so filters can only follow one of these four calls.
  `execute` turns the fields into one SQL text with `$n` placeholders and a parameter
  array (`Build`, `AppendItems`, `AppendWhere`). The `db` helpers build statements with
  a fixed layout (`Database`). A statement is modelled as a template: a sequence of text
  pieces and numbered slots (`SqlText.Piece`). The emitted SQL is its rendering. "The
  placeholders line up" is stated as `SqlText.LinesUp`. Binding slot `$n` to `params[n-1]`
  gives exactly the statement with every value written in place. The placeholders are
  `$1 .. $|params|`, in textual order. For `db.update`, whose `$1` follows the SET placeholders `$2 .. $n+1` in the text,
  each of `$1 .. $n+2` occurs exactly once (`SqlText.SlotCount`).
- **Financial years** (`src/store/financialYearStore.js`). The label of today's
  financial year, the fixed table of five years with their dates, the `find` lookup,
  and the persisted store as a class with its `financialYear` field.
- **Approval** (`src/utils/adminHelpers.js`). The administrator is recognised by the
  first email address and is always approved. Anyone else needs `approved === true`
  in the public metadata.
- **Dashboard** (`src/pages/Dashboard.jsx`). Totals with the `Number(x) || 0` coercion
  (`JsValues.NumberOr0`) and net profit. Sales grouped by platform, with `Offline` for a
  missing platform, by a loop over a map. One row per month of the range, and the all-time
  range. The records the page reads are inputs.
- **Settings** (`src/pages/Settings.jsx`). The profile form filled from user metadata,
  the metadata it saves, and the backup of eight tables, which fails at the first table
  whose read failed.

Amounts are exact reals. Dates are given as timestamps (`Option<int>`, `None` for an
invalid date). The database driver is a function parameter.

## Model

| member | source | states |
|---|---|---|
| Supabase.QueryBuilder.constructor | src/lib/supabase.js:14-23 | a new builder is a select of `*` on its table with no conditions, order, limit, payload or single flag |
| Supabase.FreshSelectsAll | src/lib/supabase.js:14-23 | a fresh builder's statement is `SELECT * FROM table` with no parameters |
| Supabase.From | src/lib/supabase.js:163-191 | `from(table)` yields a new entry object holding a newly allocated builder in the fresh state |
| Supabase.TableEntry.constructor | src/lib/supabase.js:163-164 | the entry's builder is new and fresh for the table |
| Supabase.TableEntry.Select | src/lib/supabase.js:168-172 | sets the builder's query type to select and its columns (`*` by default) and hands on the builder |
| Supabase.TableEntry.Insert | src/lib/supabase.js:174-178 | sets the builder's query type to insert and stores the payload, and hands on the builder |
| Supabase.TableEntry.Update | src/lib/supabase.js:180-184 | sets the builder's query type to update and stores the payload, and hands on the builder |
| Supabase.TableEntry.Delete | src/lib/supabase.js:186-189 | sets the builder's query type to delete and hands on the builder |
| Supabase.SelectAllFrom | src/lib/supabase.js:168-172 | `from(table).select()` builds `SELECT * FROM table` with no parameters |
| Supabase.QueryBuilder.Select | src/lib/supabase.js:25-29 | sets the query type to select and the columns (`*` by default), returns the same builder |
| Supabase.QueryBuilder.Eq | src/lib/supabase.js:31-34 | appends exactly one `=` condition after the earlier ones, returns the same builder |
| Supabase.QueryBuilder.Gte | src/lib/supabase.js:36-39 | appends exactly one `>=` condition after the earlier ones, returns the same builder |
| Supabase.QueryBuilder.Lte | src/lib/supabase.js:41-44 | appends exactly one `<=` condition after the earlier ones, returns the same builder |
| Supabase.QueryBuilder.Ilike | src/lib/supabase.js:46-49 | appends exactly one `ILIKE` condition after the earlier ones, returns the same builder |
| Supabase.QueryBuilder.Order | src/lib/supabase.js:51-55 | the order becomes `col ASC` for a truthy `ascending`, else `col DESC`, replacing any earlier one |
| Supabase.QueryBuilder.Limit | src/lib/supabase.js:57-60 | records the limit, returns the same builder |
| Supabase.QueryBuilder.Single | src/lib/supabase.js:62-65 | sets the single-row flag, returns the same builder |
| Supabase.QueryBuilder.Build | src/lib/supabase.js:71-132 | the text and parameters built from the fields are the statement of the builder's state, for each of the four kinds |
| Supabase.QueryBuilder.BuildSelect | src/lib/supabase.js:74-91 | a select renders its template; its parameters are the condition values in insertion order |
| Supabase.QueryBuilder.BuildInsert | src/lib/supabase.js:92-102 | an insert uses the row (the first element of an array); no row is the `Object.keys` error |
| Supabase.QueryBuilder.BuildUpdate | src/lib/supabase.js:103-119 | an update's parameters are the row values followed by the condition values; no payload is the `Object.keys` error |
| Supabase.QueryBuilder.BuildDelete | src/lib/supabase.js:120-131 | a delete renders its template; its parameters are the condition values |
| Supabase.QueryBuilder.Execute | src/lib/supabase.js:67-145 | the response is `Respond` of the connection, the single flag, the built statement and the driver |
| Supabase.AppendItems | src/lib/supabase.js:104-107 | pushing each value and numbering it by the new parameter count renders items `$|params|+1 ..` and appends the values |
| Supabase.AppendWhere | src/lib/supabase.js:77-83 | ` WHERE` is appended only for conditions, numbered from the next parameter; the values follow the earlier parameters |
| Supabase.SelectStatementFor | src/lib/supabase.js:74-91 | the select branch yields the rendered select template and the condition values |
| Supabase.StatementOf | src/lib/supabase.js:71-132 | a statement fails to build exactly for an insert without a row or an update without a payload (`Object.keys` error); otherwise its text is the rendered template whose placeholders line up with its parameters |
| Supabase.TemplateOf | src/lib/supabase.js:92-119 | building fails exactly for an insert without a row or an update without a payload, with the `Object.keys` TypeError |
| Supabase.Respond | src/lib/supabase.js:134-144 | no connection gives null data and the configuration error; a failed build gives null data and the build's error; a failed driver call gives null data and the driver's error; on success `single()` gives the first row or null and otherwise all rows |
| Supabase.SelectText | src/lib/supabase.js:74-91 | select text: WHERE only with conditions, ORDER BY when set, LIMIT only for a non-zero limit |
| Supabase.SelectLinesUp | src/lib/supabase.js:77-83 | the select's placeholders line up with the condition values, `$1 .. $n` in condition order |
| Supabase.InsertText | src/lib/supabase.js:99-102 | insert text: the keys as columns and `$1 .. $k` as values, then ` RETURNING *` |
| Supabase.InsertLinesUp | src/lib/supabase.js:94-102 | the insert's placeholders line up with the row's values |
| Supabase.InsertUsesFirstRow | src/lib/supabase.js:94-97 | inserting an array writes only its first element; an empty array is the `Object.keys` error |
| Supabase.UpdateText | src/lib/supabase.js:103-119 | update text: SET items from `$1`, WHERE items continuing at `$k+1`, always ending in ` RETURNING *` |
| Supabase.UpdateNumbered | src/lib/supabase.js:104-117 | the update's placeholders run `$1 .. $k+n` in textual order |
| Supabase.UpdateLinesUp | src/lib/supabase.js:103-117 | the update's placeholders line up with the row values followed by the condition values |
| Supabase.DeleteText | src/lib/supabase.js:120-131 | delete text: WHERE only with conditions, numbered from `$1`, always ending in ` RETURNING *` |
| Supabase.DeleteLinesUp | src/lib/supabase.js:120-129 | the delete's placeholders line up with the condition values |
| Supabase.PlaceholdersLineUp | src/lib/supabase.js:71-132 | for every builder state, a statement that builds has placeholders lined up with its parameters |
| Database.Query | src/lib/database.js:12-24 | no connection gives the configuration error without running; otherwise data and error are exclusive, the rows or the driver's error |
| Database.QueryLikeExecute | src/lib/database.js:12-24 | `db.query` answers as the builder's `execute` without `single()` |
| Database.InsertStatement | src/lib/database.js:26-38 | `db.insert`: the text lists the keys and `user_id` with `$1 .. $n+1`, the owner is the last parameter, and the placeholders line up with the parameters |
| Database.InsertLinesUp | src/lib/database.js:26-37 | insert binds the data values to `$1 .. $n` and `user_id` to `$n+1` |
| Database.InsertBind | src/lib/database.js:26-37 | binding the insert template to `values ++ [userId]` gives the inline statement |
| Database.InsertNumbered | src/lib/database.js:29-33 | the insert's placeholders run `$1 .. $n+1` in order |
| Database.InsertText | src/lib/database.js:27-35 | insert text: keys and `user_id` as columns, `$1 .. $n` then `$n+1` as values |
| Database.Select | src/lib/database.js:40-50 | the `forEach` loop yields the rendered select template with params `[userId] ++ condition values` |
| Database.SelectLinesUp | src/lib/database.js:40-49 | `user_id` binds to `$1` and the i-th condition to `$i+2` |
| Database.SelectText | src/lib/database.js:41-47 | select text: `user_id = $1`, then ` AND key = $k` per condition |
| Database.UpdateStatement | src/lib/database.js:52-65 | `db.update`: `$1` is the id and `$n+2` the owner; binding writes each value at its key; every one of `$1 .. $n+2` occurs exactly once |
| Database.UpdateBind | src/lib/database.js:52-65 | binding to `[id] ++ values ++ [userId]` puts `id` at the row filter, each value at its key, and `userId` at the owner filter |
| Database.UpdateItemsNumbered | src/lib/database.js:53-55 | the SET list numbers its placeholders `$2 .. $n+1` in key order |
| Database.UpdateSlotCount | src/lib/database.js:52-65 | each of `$1 .. $n+2` occurs exactly once in the update and no other placeholder occurs |
| Database.UpdateText | src/lib/database.js:53-63 | update text: `key = $i+2` items, `updated_at = NOW()`, `WHERE id = $1 AND user_id = $n+2` |
| Database.DeleteStatement | src/lib/database.js:67-76 | `db.delete`: `WHERE id = $1 AND user_id = $2` with params `[id, userId]`, lined up |
| Database.DeleteLinesUp | src/lib/database.js:68-75 | delete binds `id` to `$1` and `userId` to `$2` |
| Database.DeleteText | src/lib/database.js:69-73 | delete text: `WHERE id = $1 AND user_id = $2` |
| YearStore.IntStr | src/store/financialYearStore.js:21 | `String(n)` of a non-negative integer is its decimal numeral |
| YearStore.LastTwo | src/store/financialYearStore.js:21 | `slice(-2)` is the last two characters, or the whole of a shorter string |
| YearStore.CurrentFinancialYear | src/store/financialYearStore.js:13-27 | both branches give the label of the year in which the date's financial year begins |
| YearStore.LabelSuffix | src/store/financialYearStore.js:20-26 | the label is the first year, a dash and two digits whose value is (first year + 1) mod 100 |
| YearStore.LastTwoDigits | src/store/financialYearStore.js:21-24 | the last two characters of a number of two or more digits are two digits worth the number mod 100 |
| YearStore.LabelInjective | src/store/financialYearStore.js:20-26 | distinct first years of the common era give distinct labels |
| YearStore.LabelIdentifiesYear | src/store/financialYearStore.js:13-27 | two dates get the same label exactly when they fall in the same financial year |
| YearStore.TableEntry0 | src/store/financialYearStore.js:5 | the entry's value and label are the label of 2026, from 2026-04-01 to 2027-03-31 |
| YearStore.TableEntry1 | src/store/financialYearStore.js:6 | the entry's value and label are the label of 2025, from 2025-04-01 to 2026-03-31 |
| YearStore.TableEntry2 | src/store/financialYearStore.js:7 | the entry's value and label are the label of 2024, from 2024-04-01 to 2025-03-31 |
| YearStore.TableEntry3 | src/store/financialYearStore.js:8 | the entry's value and label are the label of 2023, from 2023-04-01 to 2024-03-31 |
| YearStore.TableEntry4 | src/store/financialYearStore.js:9 | the entry's value and label are the label of 2022, from 2022-04-01 to 2023-03-31 |
| YearStore.TableEntries | src/store/financialYearStore.js:4-10 | every entry has value == label and runs from 1 April of its first year to 31 March of the next |
| YearStore.Entry0Matches | src/store/financialYearStore.js:5 | the entry's value is the label of exactly the year 2026 |
| YearStore.Entry1Matches | src/store/financialYearStore.js:6 | the entry's value is the label of exactly the year 2025 |
| YearStore.Entry2Matches | src/store/financialYearStore.js:7 | the entry's value is the label of exactly the year 2024 |
| YearStore.Entry3Matches | src/store/financialYearStore.js:8 | the entry's value is the label of exactly the year 2023 |
| YearStore.Entry4Matches | src/store/financialYearStore.js:9 | the entry's value is the label of exactly the year 2022 |
| YearStore.Find | src/store/financialYearStore.js:56 | `find` gives the first entry whose value matches, or none when no entry matches |
| YearStore.FinancialYearDates | src/store/financialYearStore.js:55-58 | null exactly when no entry's value matches; otherwise a matching entry's start and end (the store's own copy at lines 37-40 is the same) |
| YearStore.DatesOfCoveredLabel | src/store/financialYearStore.js:55-58 | today's label for a year from 2022 to 2026 finds 1 April of that year to 31 March of the next |
| YearStore.DatesOfOtherLabel | src/store/financialYearStore.js:4-10 | today's label for any other year finds nothing, so from April 2027 the default year has no dates |
| YearStore.FinancialYearStore.constructor | src/store/financialYearStore.js:31-33 | the store starts at today's financial year with the full table |
| YearStore.FinancialYearStore.SetFinancialYear | src/store/financialYearStore.js:35 | replaces the selected year and leaves the table untouched |
| YearStore.FinancialYearStore.CurrentFYDates | src/store/financialYearStore.js:42-46 | agrees with `getFinancialYearDates` of the stored year; null exactly when no entry matches it |
| Admin.Get | src/utils/adminHelpers.js:14 | optional chaining gives undefined for a missing object or property |
| Admin.PrimaryEmail | src/utils/adminHelpers.js:6 | no user or no addresses give undefined |
| Admin.IsUserAdmin | src/utils/adminHelpers.js:5-7 | admin iff there is a user whose first address is the administrator's (also `isAdmin` at src/pages/Settings.jsx:14) |
| Admin.IsUserApproved | src/utils/adminHelpers.js:9-15 | an admin is approved; a non-admin iff the public metadata's `approved` is the boolean `true` |
| Admin.AdminIgnoresLaterAddresses | src/utils/adminHelpers.js:6 | addresses after the first never change the verdict |
| Admin.AdminAddressSecondIsNotAdmin | src/utils/adminHelpers.js:6 | the administrator's address in second place does not make an admin |
| Admin.MissingMeansNotApproved | src/utils/adminHelpers.js:14 | no user, or a non-admin without public metadata, is not approved |
| Admin.ApprovalIsStrict | src/utils/adminHelpers.js:14 | a non-admin is approved iff `approved` is `true`; the truthy string "true" and number 1 do not count |
| JsValues.NumberOr0Numeral | src/pages/Dashboard.jsx:134 | a whole-number string amount (or its negation) counts as its value |
| JsValues.NumberOr0Decimal | src/pages/Dashboard.jsx:134 | a decimal string amount such as `"12.50"` counts as its value |
| JsValues.NumberOr0NonNumeric | src/pages/Dashboard.jsx:134 | missing, null, empty and non-numeric amounts count as 0 |
| Dashboard.Total | src/pages/Dashboard.jsx:134-137 | a total of non-negative coerced amounts is non-negative; one record's total is its coerced amount |
| Dashboard.TotalSnoc | src/pages/Dashboard.jsx:134 | the `reduce` adds each record's coerced amount once |
| Dashboard.TotalConcat | src/pages/Dashboard.jsx:134-137 | a total is additive over any split of its records |
| Dashboard.NonNumericAddsNothing | src/pages/Dashboard.jsx:134-137 | a record with a missing or non-numeric amount leaves the total unchanged |
| Dashboard.OrEmpty | src/pages/Dashboard.jsx:75-78 | null data is read as no records |
| Dashboard.PlatformKey | src/pages/Dashboard.jsx:143 | a missing or empty platform is `Offline`; any other platform is kept; the key is never empty |
| Dashboard.GroupByPlatform | src/pages/Dashboard.jsx:141-150 | the loop over `platformData` yields each platform, in first-appearance order, with the sum of its sales |
| Dashboard.GroupStep | src/pages/Dashboard.jsx:142-145 | one pass of the loop body keeps the keys in first-appearance order and every stored value equal to its platform's running total |
| Dashboard.Tally | src/pages/Dashboard.jsx:147-150 | each listed platform is paired with its own total |
| Dashboard.Entries | src/pages/Dashboard.jsx:147-150 | `Object.entries` pairs each key, in insertion order, with its value |
| Dashboard.PlatformsDistinct | src/pages/Dashboard.jsx:141-150 | each platform appears once in `platformSales` |
| Dashboard.SalePlatformListed | src/pages/Dashboard.jsx:142-145 | every sale's platform (Offline when missing) is listed |
| Dashboard.ListedPlatformHasSale | src/pages/Dashboard.jsx:142-145 | only platforms of actual sales are listed |
| Dashboard.PlatformTotalSnoc | src/pages/Dashboard.jsx:144 | a sale adds its amount to its own platform's total and to no other |
| Dashboard.UnlistedPlatformZero | src/pages/Dashboard.jsx:144 | a platform without sales has total 0 |
| Dashboard.TallySnocSale | src/pages/Dashboard.jsx:144 | one more sale raises the tallied sum by its amount exactly when its platform is tallied |
| Dashboard.PlatformSalesSum | src/pages/Dashboard.jsx:141-145 | the platform totals add up to total sales |
| Dashboard.InMonthOf | src/pages/Dashboard.jsx:155-158 | the filter keeps exactly the records dated inside the month, each as often as it occurs, and no others |
| Dashboard.MonthTotalSnoc | src/pages/Dashboard.jsx:155-163 | a record counts in a month's total exactly when it is dated inside that month |
| Dashboard.MonthlySales | src/pages/Dashboard.jsx:153-171 | one row per month, in month order |
| Dashboard.MonthlyRow | src/pages/Dashboard.jsx:165-170 | a row carries the month's name, its sales and purchases, and profit = sales - purchases |
| Dashboard.MonthsSumSnoc | src/pages/Dashboard.jsx:153-163 | over ascending months a record adds its amount to the monthly sum at most once |
| Dashboard.MonthsPartitionTotal | src/pages/Dashboard.jsx:153-171 | over ascending months covering every record, the monthly totals add up to the overall total |
| Dashboard.SalesColumn | src/pages/Dashboard.jsx:165-169 | the sales column of the rows is the months' sum over sales |
| Dashboard.MonthlySalesPartition | src/pages/Dashboard.jsx:153-171 | over ascending months covering every sale, the monthly sales add up to total sales |
| Dashboard.ValidDates | src/pages/Dashboard.jsx:80-83 | exactly the valid dates of the records are kept |
| Dashboard.Earliest | src/pages/Dashboard.jsx:86 | `Math.min` is one of the dates and no greater than any |
| Dashboard.Latest | src/pages/Dashboard.jsx:87 | `Math.max` is one of the dates and no less than any |
| Dashboard.AllTimeRange | src/pages/Dashboard.jsx:80-92 | the range runs from one valid date to another, ordered; with no valid date it is today to today |
| Dashboard.AllTimeRangeCovers | src/pages/Dashboard.jsx:80-87 | every valid sale or purchase date lies inside the all-time range |
| Dashboard.Aggregate | src/pages/Dashboard.jsx:134-182 | net profit = sales - purchases - expenses; platform totals sum to sales; one row per month; no recent transactions |
| Dashboard.ComputeMetrics | src/pages/Dashboard.jsx:134-182 | the computation after the reads yields the aggregate metrics |
| Dashboard.FetchDashboardData | src/pages/Dashboard.jsx:42-182 | no user, or a financial year without dates, stops before any metric; otherwise the metrics over the all-time range or the year's dates |
| Settings.LoadForm | src/pages/Settings.jsx:26-38 | without a user the form is unchanged; otherwise each field is its truthy metadata value or its fallback |
| Settings.BareUserDefaults | src/pages/Settings.jsx:16-36 | a user without metadata, name or address gets empty fields and `April` |
| Settings.SavePayload | src/pages/Settings.jsx:47-54 | the saved metadata has exactly the six profile keys and never `email` |
| Settings.Submit | src/pages/Settings.jsx:46-55 | the update replaces the unsafe metadata with the payload and changes nothing else |
| Settings.SaveThenLoad | src/pages/Settings.jsx:26-55 | saving a form and loading it back gives the form, with the email from the account |
| Settings.EqFilterText | src/pages/Settings.jsx:90-93 | one `eq` filter renders as ` WHERE column = $1` |
| Settings.EqSelectStatement | src/pages/Settings.jsx:90-93 | a select of `*` with one `eq` filter has the text `SELECT * FROM t WHERE column = $1` and the one value as parameter |
| Settings.BackupQueryStatement | src/pages/Settings.jsx:89-94 | each backup read is `SELECT * FROM table WHERE user_id = $1` with params `[userId]` |
| Settings.BackupResults | src/pages/Settings.jsx:88-95 | one response per table, in table order |
| Settings.TableData | src/pages/Settings.jsx:107 | null data becomes an empty list |
| Settings.BackupKeys | src/pages/Settings.jsx:97-108 | the backup's keys are `generated_at`, `user_id`, then the tables in order |
| Settings.FirstError | src/pages/Settings.jsx:102-106 | the first failed read, or none when all succeeded |
| Settings.Filled | src/pages/Settings.jsx:102-108 | one entry per table with its rows |
| Settings.BackupOf | src/pages/Settings.jsx:97-108 | the backup succeeds iff no read failed, and then holds the date, the user id and each table's rows in table order |
| Settings.AssembleBackup | src/pages/Settings.jsx:97-108 | the `forEach` loop throws at the first failed table, else fills every table |
| Settings.BackupFailsOnFirstError | src/pages/Settings.jsx:102-106 | the backup fails iff some read failed; the message names the first such table and its error |
| Settings.BackupHoldsEveryTable | src/pages/Settings.jsx:77-108 | a successful backup has `generated_at`, `user_id` and one key per table, in order |
| Settings.NullDataStoredEmpty | src/pages/Settings.jsx:107 | a table read with null data is stored as an empty list |
| Settings.TablesDistinct | src/pages/Settings.jsx:77-86 | eight distinct tables, none named like the two fixed keys |
| Settings.DownloadOf | src/pages/Settings.jsx:67-127 | no user gives the login alert; any other alert is `Error generating backup: ...`; a download carries the user's id, the time and the keys `generated_at`, `user_id` and the eight tables |
| Settings.DownloadBackup | src/pages/Settings.jsx:67-127 | no user gives the login alert; a failed read gives `Error generating backup: ...`; otherwise the backup |
| Settings.NoUserNoRead | src/pages/Settings.jsx:68-71 | without a user the outcome is the login alert, whatever the database |
| Settings.UnconfiguredNamesSales | src/pages/Settings.jsx:102-123 | without a connection the alert names the first table, `sales`, and the configuration error |

## Left out

- Database execution: the `neon` driver is a function parameter (`Driver`), and `configured` stands for the connection string being set. SQL semantics are not modelled. Table and column names are spliced in as given.
- `then` (src/lib/supabase.js:148-150) and the `auth.getUser` stub (src/lib/supabase.js:156-160): awaitable plumbing and a constant answer.
- `QueryBuilder.Limit` takes a natural number. A non-numeric limit is not modelled.
- The zustand `persist` middleware, and the helpers `getAllFinancialYears` and `getCurrentFY` (src/store/financialYearStore.js:61-64). They return `FinancialYears` and `CurrentFinancialYear` unchanged.
- Reading today's date: the year and month are parameters. `new Date(...)` parsing is the `parseDate` parameter of `Dashboard.FetchDashboardData`; the record dates are given already parsed. `date-fns` `eachMonthOfInterval` and `format` are the `eachMonth` parameter.
- The dashboard's four reads and their filters: the rows they return are inputs.
- `Dashboard.MonthlySalesPartition`: it holds for months that are ascending and cover every sale. That is how `eachMonthOfInterval` builds them over the range the reads were filtered by, but the model does not derive this.
- JavaScript floating point: amounts are exact reals, so `NaN` never arises from a sum and the trailing `|| 0` after each `reduce` is the identity.
- `JsValues.ToNumber`: `Number()` is modelled for the empty string and for signed decimal numerals. Exponents, hex, whitespace trimming and `Infinity` read as NaN here.
- `Dashboard.GroupByPlatform`: `platformData` is a map, not a plain object, so platform names that collide with inherited `Object.prototype` members are not modelled. For `constructor` or `toString` the source would read the inherited function; for `__proto__` it would drop the platform. For such names `Dashboard.PlatformSalesSum` does not describe the source.
- `Dashboard.PlatformKey`: a platform is a string or missing. Non-string platform values are not modelled.
- `Object.entries` lists integer-like keys first. This reordering of platform names is not modelled.
- `Dashboard.FetchDashboardData`: the `try`/`catch`, the loading flag and the `console.error` report are not modelled. Nothing in the model throws.
- `Admin.User`: a user record always has a list of addresses. A user object without an `emailAddresses` array, which throws in the source, is not modelled.
- `Settings.Submit`: the failure path of `user.update` (the 'Error updating settings' alert), the saved flag and its timeout are not modelled.
- `Settings.DownloadBackup`: `JSON.stringify`, the Blob, the download link and the file name are not modelled, nor is the loading flag. `generated_at` is the `now` parameter.
- `Settings.Backup`: the backup object is a sequence of (table, rows) pairs in insertion order. Duplicate table names would overwrite a key in JavaScript; the eight names are distinct (`Settings.TablesDistinct`).
- JSX rendering, charts, `formatINR`, `alert` and DOM output. The page files' other handlers are not part of this model.
