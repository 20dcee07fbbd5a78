# actual-sparebank1, modelled in Dafny

actual-sparebank1 is a single Node.js script (`main.js`). It pulls transactions
from the SpareBank 1 open-banking API and imports them into an Actual Budget
ledger. This project models the parts of the script that have precise behaviour
and proves properties about them:

- **Transaction mapping** (`makeTransaction`), in module `Transactions`. A bank
  transaction becomes a ledger entry. When the counterparty account number is a
  key of the configuration's `accounts` table, the entry is a transfer. It is
  booked against the first payee whose `transfer_acct` is that account's ledger
  id. Otherwise it is an external payment, named by the cleaned description,
  with the raw description kept as `imported_payee`. The amount is
  `Math.round(amount * 100)`.
- **The import command**, in module `Sync`. Only BOOKED transactions are kept.
  They are mapped in order, and each account's batch goes to the ledger's
  import. This happens for the selected account alone, or for every account of
  the table, one after the other. A run stops at the first failure.
- **The bank client**, in module `BankClient`. The token pair lives in a class
  `Client`. A GET carries `Authorization: Bearer <access token>`, as in
  section 2.1 of RFC 6750. On a 401 to the first attempt, the client runs the
  refresh-token grant of section 6 of RFC 6749 once, replaces and saves both
  tokens, and retries once with the new token. Any other failure, or a 401 on
  the retry, is fatal. The server and the token endpoint are given as the
  scripts of answers they will give. The saved configuration and the
  client's requests are ghost state.
- **The date window**, in modules `Calendar`, `IsoFormat` and `DateWindow`.
  Month mode runs from `Date.UTC(y, m, 1)` to `Date.UTC(y, m + 1, 0)`. Days
  mode runs from today minus N days to today. The query sends
  `toISOString().split('T')[0]`. Dates are (year, month, day) triples of the
  proleptic Gregorian calendar. JavaScript's day and month overflow is written
  out explicitly.

Files: `wrappers.dfy` (Option, Result), `calendar.dfy`, `iso_format.dfy`,
`date_window.dfy`, `transactions.dfy`, `sync.dfy`, `bank_client.dfy`.

## Model

| member | source | states |
|---|---|---|
| Calendar.DaysInMonth | main.js:211 | a month has 28 to 31 days; it has 29 exactly for February of a leap year |
| Calendar.NextDay | main.js:207 | the next day is a valid date strictly later than the given one; it is the 1st exactly when the given day ends its month |
| Calendar.PrevDay | main.js:211 | the previous day is a valid date strictly earlier; it ends its month exactly when the given day is the 1st |
| Calendar.PrevNextInverse | main.js:207 | stepping a day forward and back (or back and forward) returns the same date |
| Calendar.NextDayIsAdjacent | main.js:207 | no valid date lies strictly between a day and the next day |
| Calendar.AddDays | main.js:207 | moving by n days gives a valid date, later for n > 0, earlier for n < 0, the same for n = 0 |
| Calendar.AddDaysAfterNext | main.js:207 | moving k days from the next day is moving k + 1 days |
| Calendar.AddDaysAfterPrev | main.js:207 | moving k days from the previous day is moving k - 1 days |
| Calendar.AddDaysCompose | main.js:207 | moving a days and then b days is moving a + b days |
| Calendar.UtcDate | main.js:210-211 | the calendar date `Date.UTC(y, m, d)` computes, folding an overflowing month into the year and counting the day from the 1st of that month, is always a valid date; dates beyond the range of a `Date` (where `Date.UTC` gives NaN) are rejected later, by `IsoFormat.IsoString` and `IsoFormat.QueryDate` |
| IsoFormat.Digits | main.js:164-165 | a zero-padded field has exactly the requested width and only decimal digits |
| IsoFormat.DigitsRoundTrip | main.js:164-165 | a number below 10^w is read back from its w-digit field |
| IsoFormat.IsoYear | main.js:164-165 | the year field has four digits for years 0 to 9999; otherwise it is a sign and six digits |
| IsoFormat.IsoDate | main.js:164-165 | `YYYY-MM-DD` contains only digits and signs, never a 'T', and is 10 characters long for years 0 to 9999 |
| IsoFormat.IsoDateRoundTrip | main.js:164-165 | every date a `Date` can hold is read back from its `YYYY-MM-DD` form |
| IsoFormat.IsoString | main.js:164-165 | `toISOString` throws exactly for instants outside a `Date`'s range; otherwise the string starts with the date and has a 'T' right after it |
| IsoFormat.BeforeT | main.js:164-165 | `split('T')[0]` is the longest prefix without a 'T'; it is followed by a 'T' unless it is the whole string |
| IsoFormat.BeforeTOfJoin | main.js:164-165 | cutting `a + "T" + b` before its first 'T' gives back `a` when `a` has no 'T' |
| IsoFormat.QueryDate | main.js:164-165 | the query value is the instant's calendar date as `YYYY-MM-DD`, which reads back to that date; it fails exactly when the instant is out of range |
| DateWindow.MonthWindow | main.js:209-211 | both ends of a month window are valid calendar dates at midnight UTC; a window out of the range of a `Date` (an Invalid Date in the script) fails when it is formatted, in `IsoFormat.QueryDate` |
| DateWindow.MonthWindowSpansMonth | main.js:209-211 | for a year outside 0..99 the window runs from day 1 to the last day of the month; December ends on the 31st and does not spill into January |
| DateWindow.MonthWindowTwoDigitYear | main.js:210-211 | for a year 0..99 the window covers that month of year 1900 + year |
| DateWindow.SyncWindow | main.js:204-212 | both ends of the window of a run are valid instants, in either mode |
| DateWindow.DaysWindowEndsNow | main.js:206-207 | days mode ends now and starts the given number of days earlier at the same time of day; a negative count puts the start after now |
| DateWindow.March2024Window | main.js:209-211 | the month 2024-03 gives 2024-03-01 to 2024-03-31, sent as "2024-03-01" and "2024-03-31" |
| DateWindow.LeapFebruaryWindow | main.js:209-211 | February ends on the 29th in 2024 and on the 28th in 2023 |
| Transactions.MinorUnits | main.js:179 | the amount in minor units is the integer nearest to amount × 100; a tie goes towards positive infinity |
| Transactions.MinorUnitsTies | main.js:179 | -12.5 gives -1250; the ties 12.5 and -12.5 minor units give 13 and -12 |
| Transactions.FindTransferPayee | main.js:185 | `find` gives the first payee whose transfer account matches; it gives nothing exactly when no payee matches |
| Transactions.MakeTransaction | main.js:175-192 | the entry belongs to the synced account, with the bank's date and the rounded amount; exactly one of payee and payee_name is set; a mapped counterparty gives the first matching transfer payee; a mapped counterparty with no transfer payee fails, and nothing else fails; an unmapped counterparty gives payee_name = cleaned description and imported_payee = description |
| Transactions.ClassificationExamples | main.js:182-190 | counterparty "999" mapped to "A2", with transfer payee "P1", gives payee "P1"; counterparty "111" gives payee_name "Coffee Shop" and imported_payee "COFFEE SHOP OSLO 4521" |
| Sync.BookedOnly | main.js:241 | the filter keeps every BOOKED transaction and nothing else, and never makes the list longer |
| Sync.BookedOnlyAppend | main.js:240-241 | the filter keeps order: filtering a concatenation is concatenating the filtered parts |
| Sync.MapBatch | main.js:242 | `.map` succeeds exactly when every transaction maps; the result is one entry per transaction, in order; otherwise it fails with the first failing transaction's error |
| Sync.AccountBatchIsBookedMapped | main.js:240-243 | an account's batch is exactly its BOOKED transactions, mapped one to one in order and booked to that account; a list without BOOKED transactions gives an empty batch |
| Sync.BookedAndPendingExample | main.js:248-250 | one BOOKED and one PENDING transaction give a batch of one entry |
| Sync.ImportRunInOrder | main.js:245-252 | the k-th import call is for the k-th account of the loop, with that account's batch; there are never more calls than accounts |
| Sync.ImportRunStopsAtFirstFailure | main.js:245-252 | every call but the last was accepted; a rejected import is the last call; the run has no error exactly when it made one accepted call per account |
| Sync.ImportRunCompletes | main.js:245-252 | when every account fetches, its batch maps and the ledger accepts its import, the run completes with one call per account |
| Sync.ImportRunFailureCause | main.js:245-252 | a fetch failure is that of the account right after the last imported one, whose fetch threw; a mapping failure is that account's batch failing with that error; a rejected import is the last call's account, which the ledger did not accept |
| Sync.ImportAll | main.js:245-252 | the loop issues exactly the calls of the run specification and stops with its error |
| Sync.Import | main.js:235-253 | a non-empty option that is a key of the table imports that account alone; otherwise, including for an unknown or empty option, every account of the table is imported, in loop order |
| BankClient.GetEvents | main.js:125-151 | one call first sends a GET with the token it holds. Only after a 401 does it refresh, with the refresh token it holds. Only after tokens are issued does it save the new pair and then send one GET to the same URL with the new access token |
| BankClient.GetSendsAtMostTwice | main.js:125-151 | one call sends one or two GETs and at most one refresh, and refreshes only after a 401 |
| BankClient.GetOutcome | main.js:139-150 | an ok response returns its body and keeps the tokens; any other non-401 status fails with that status; a failed refresh fails and keeps the tokens; after a successful refresh the tokens are the issued pair and the retry decides the outcome, with a 401 on the retry failing with 401 |
| BankClient.RefreshOnceThenOk | main.js:139-142 | a 401 and then an ok response give one refresh, one retry with the new token, the saved new pair and the retry's body |
| BankClient.TwoUnauthorizedFail | main.js:140-146 | a 401 on both attempts fails with 401 after exactly one refresh |
| BankClient.GetKeepsTokensSaved | main.js:120-122 | when the saved configuration holds the tokens in memory, it still does after a call |
| BankClient.Client.constructor | main.js:13 | the client starts with the tokens of the loaded configuration, which are also the saved ones |
| BankClient.Client.SaveConfig | main.js:40-52 | saving writes out the tokens in memory and records the save |
| BankClient.Client.Send | main.js:127-135 | a GET carries `Bearer <access token>` and takes the server's next answer; it throws when there is none |
| BankClient.Client.Exchange | main.js:106-122 | a token request is recorded; when it issues tokens, both tokens are replaced and saved; otherwise the exchange fails and the tokens stay |
| BankClient.Client.RefreshToken | main.js:103-123 | the refresh uses the refresh_token grant with the refresh token held now |
| BankClient.Client.Authorize | main.js:97-100 | the code exchange uses the authorization_code grant; on success the new pair is saved |
| BankClient.Client.Get | main.js:125-151 | the recursive GET with the firstAttempt flag does exactly what the call specification says |
| BankClient.TransactionsQuery | main.js:162-166 | the query holds accountKey, fromDate and toDate as the `YYYY-MM-DD` renderings of the window's ends (which read back to those dates), and source=ALL; it fails exactly when an end is out of range |

## Left out

- Environment variables and config loading (`requireEnv`, `require(configPath)`) are not modelled. The client is built from the loaded token pair.
- Writing the config file is not modelled. A save is a ghost event, and a save that throws is not modelled (the source would leave the new tokens in memory unsaved).
- The interactive prompt (`ask`) and the printing of the authorize URL are not modelled. `Authorize` starts from the code the user typed.
- The `oauth` library, `fetch` and Actual's API (`init`, `downloadBudget`, `getPayees`, `importTransactions`, `shutdown`) are foreign calls. Their outcomes are inputs: scripted answers, the payee list, a fetch function and an accept function.
- The client credentials in the token request are not modelled.
- `Sync.ImportAll` takes each account's fetched transactions as an input function. The token store is not threaded through the per-account GETs; `BankClient.Client.Get` covers one GET on its own.
- The order of `Object.entries(config.accounts)` is not modelled. The loop visits the account numbers in a given sequence `keys`.
- The listing commands (`budget-accounts`, `budget-payees`, `bank-accounts`, `bank-transactions`, `sparebank1Accounts`) only print, so they are not modelled.
- Logging and command-line option parsing are not modelled.
- Response bodies are opaque strings. A body that is not JSON is not modelled. On a non-ok status the source first parses the body for its log, and a parse failure there would change the error thrown.
- A token reply that has an access token but no refresh token is not modelled (the source would store `undefined`). The authorization-code exchange reporting success without tokens is not modelled either.
- Lookup of an inherited object property as an account number (such as "constructor") is not modelled. Neither is a transaction without `remoteAccountNumber`, which the source looks up under "undefined".
- Amounts are exact decimals (`real`). IEEE-754 error in `amount * 100` is not modelled.
- Time zones are not modelled. The model does not capture `toLocaleDateString('sv-SE')`, the local `getFullYear`/`getMonth` of the parsed month option, or a local `setDate` across a daylight-saving change. Now is an input instant read on the UTC clock, and the month option is an input (year, 0-based month).
- Transactions.MakeTransaction: the entry's `date` is the bank transaction's calendar date, not the string that `toLocaleDateString('sv-SE')` renders.
