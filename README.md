# StockSaga backend core, modelled in Dafny

StockSaga is a brokerage simulation. Users sign up by e-mail with a one-time password (OTP). Each user holds cash (10000 to start) and a portfolio of positions. Users buy and sell shares at the live quote. Every executed trade is stored as a transaction record, and users can query those records later. This project models three parts of it and proves properties about them:

- **The trade step** of `POST /transaction` (`controllers/transactionController.js`).
  - `Portfolio` is the pure ledger. It works on a `Holdings` value (cash plus a `seq<Position>`). `BuyStep`, `SellStep` and `Apply` compute one step: either it is refused with a reason, or it yields the new holdings and the trade's total cost. `IndexOf` is the `findIndex` lookup. The lemmas prove the account invariant, the weighted-average rule, the splice of an emptied entry, a buy/sell round trip and a worked three-trade scenario.
  - `Trading.Account` is the user document as a class. Its fields `balance` and `portfolio` are updated in place by `Trade`, following the handler's own statements. `Trade` is proved to perform exactly one `Portfolio.Apply` step.
  - `Trading.PostTransaction` is the whole handler. It applies the guards in the handler's order: symbol check, quote, user lookup, action. It then runs the trade and stores one record in a `TransactionLog`.
- **The history query** of `GET /transactions/history`, in `History`.
  - `Matches` is the record filter. The requested symbol is upper-cased and the action lower-cased. The quantity and price bounds are inclusive.
  - `SortSelection` chooses the sort. It sorts only on a whitelisted field, and descending only for `"desc"`.
  - `SortBy` is a reference insertion sort. The database's sort is modelled as "some permutation of the matches sorted by the key".
- **The OTP signup flow** of `index.js`, in `Signup`.
  - `SignupStep` and `VerifyStep` are the two transitions over a `Registry`. A `Registry` holds the pending-signup map and the user store.
  - `SignupService` is the server state as a class with those two maps. Its methods are proved to perform exactly those transitions.
  - The clock, the random draw behind the OTP, the password hash and whether the e-mail was sent are all inputs.

`Strings` supplies what the handlers use from JavaScript:
- `trim`, with ECMAScript's whitespace set;
- ASCII `toLowerCase`/`toUpperCase`;
- the decimal rendering behind the OTP string.

Three behaviours of the code differ from what a reader of the routes might expect, and the model follows the code:
- **An unrecognised `action`.** One would expect it to be refused up front as a validation error. In the code it runs neither branch, saves the unchanged user, and then fails the transaction schema's `action` enumeration. The model returns `Failed(RecordRejected)` and changes nothing.
- **Symbol case.** One would expect tickers to be upper-cased on the way in. The code stores and looks up the symbol exactly as the client sent it, while the history filter upper-cases the requested symbol. `History.LowerCaseSymbolNeverMatches` proves the consequence: a trade recorded with a lower-case letter in its symbol is never found by a symbol filter.
- **Atomicity.** One would expect the balance update and the record to be persisted together. The code saves the user and the record separately. The model applies both as one step.

`Signup.User` and `Trading.Account` are the same user document (`models/User.js`), seen by the two routes: signup creates it, the trade handler loads and updates it. `Signup.CreatedUserIsFreshAccount` links them: a freshly created user has the default cash, an empty portfolio and satisfies `Portfolio.Consistent`, which is what `Trading.Account.Trade` requires.

## Model

| member | source | states |
|---|---|---|
| `Portfolio.ParseAction` | controllers/transactionController.js:49-69 | `action` is recognised only as exactly "buy" or "sell"; a recognised action names itself back, and every other string is unrecognised |
| `Portfolio.ParseActionName` | models/Transaction.js:10-14 | the record's action names "buy"/"sell" parse back to the same side |
| `Portfolio.IndexOf` | controllers/transactionController.js:55 | the result is the first index whose symbol equals the order's, or -1 exactly when no entry has that symbol |
| `Portfolio.IndexOfUnique` | controllers/transactionController.js:70 | when symbols are unique, the lookup finds the one entry holding the symbol |
| `Portfolio.BuyStep` | controllers/transactionController.js:44-67 | refused (insufficient funds) exactly when balance < price × quantity, so equal funds suffice. Otherwise the balance drops by exactly price × quantity and stays non-negative. A held symbol keeps the length; its entry gets quantity old + q and price (oldPrice·oldQty + price·q)/(oldQty + q); all other entries are unchanged. An unheld symbol appends exactly one entry (symbol, q, price) at the end |
| `Portfolio.SellStep` | controllers/transactionController.js:69-80 | refused (not enough stock) exactly when the symbol is not held or fewer than q shares are held. Otherwise the balance rises by price × quantity. An entry that reaches 0 is spliced out and the other entries keep their order. Otherwise that entry's quantity drops by q, its stored price is unchanged, and all other entries are unchanged |
| `Portfolio.TotalCost` | controllers/transactionController.js:44 | the total cost of `quantity` shares divided by the quantity gives back the quoted price; at a positive price it is at least one share's price |
| `Portfolio.AveragePrice` | controllers/transactionController.js:59-61 | the new average times the new share count equals what was paid for both lots; with nothing held it is the new price; otherwise it lies between the held price and the new price |
| `Portfolio.Apply` | controllers/transactionController.js:49-81 | the action dispatch: a refusal carries the side's reason (insufficient funds for a buy, not enough stock for a sell); an execution costs price × quantity and debits the cash for a buy, credits it for a sell |
| `Portfolio.IndexOfAppended` | controllers/transactionController.js:65-66 | after appending an entry for an unheld symbol, the lookup finds it at the end |
| `Portfolio.BuyKeepsConsistent` | controllers/transactionController.js:49-67 | an executed buy at a positive price keeps balance ≥ 0, symbols unique and every entry's quantity and price positive |
| `Portfolio.SellKeepsConsistent` | controllers/transactionController.js:69-80 | an executed sell at a positive price keeps balance ≥ 0, symbols unique and leaves no entry at quantity 0 |
| `Portfolio.PositiveAverage` | controllers/transactionController.js:59-61 | the weighted average of two positive prices is positive |
| `Portfolio.ApplyKeepsConsistent` | controllers/transactionController.js:49-81 | an executed buy or sell at a positive price keeps the account invariant: balance ≥ 0, symbols unique, every entry with quantity > 0 and price > 0 |
| `Portfolio.RejectionsAreExactlyTheRules` | controllers/transactionController.js:49-73 | a step is refused if and only if (buy) the balance is below the cost, or (sell) the symbol is missing or too few shares are held |
| `Portfolio.SellAllRemoves` | controllers/transactionController.js:75-80 | selling a whole position succeeds, leaves the symbol absent from the portfolio and shortens it by one |
| `Portfolio.BuyThenSellRestores` | controllers/transactionController.js:54-80 | buying q of an unheld symbol, then selling q at the same price, restores balance and portfolio exactly |
| `Portfolio.TwoBuysAverage` | controllers/transactionController.js:57-66 | two buys (q1 at p1, then q2 at p2) of an unheld symbol leave balance − p1·q1 − p2·q2 and one appended entry with quantity q1 + q2 and price (p1·q1 + p2·q2)/(q1 + q2) |
| `Portfolio.WorkedScenario` | controllers/transactionController.js:44-80 | from 10000: buy 10 AAPL at 150 gives 8500 and {AAPL 10 @150}. Then buy 5 at 160 gives 7700 and {AAPL 15 @2300/15}. Then sell 15 at 170 gives 10250 and an empty portfolio |
| `Trading.Account.constructor` | models/User.js:23-34 | a new account has the default balance 10000, an empty portfolio, and satisfies the account invariant |
| `Trading.Account.Trade` | controllers/transactionController.js:44-81 | the in-place updates of `balance` and `portfolio` perform exactly `Portfolio.Apply` on the old holdings. A refusal leaves both fields unchanged, and the account invariant is preserved |
| `Trading.Account.TradeBuy` | controllers/transactionController.js:49-67 | the buy branch's in-place updates of `balance` and `portfolio` perform exactly `Portfolio.BuyStep`; a refusal leaves both fields unchanged |
| `Trading.Account.TradeSell` | controllers/transactionController.js:69-80 | the sell branch's in-place updates (decrement, credit, splice) perform exactly `Portfolio.SellStep`; a refusal leaves both fields unchanged |
| `Trading.TransactionLog.Append` | controllers/transactionController.js:85-95 | saving a record appends exactly that record |
| `Trading.TransactionLog.Find` | controllers/transactionController.js:122-139 | the result holds exactly the stored records that match the filter, each as often as it is stored. With a whitelisted sort they are sorted by the chosen key and direction; with none, the order the database leaves unspecified is taken to be insertion order (see "Left out") |
| `Trading.ValidSymbol` | controllers/transactionController.js:37-39 | a symbol passes the check exactly when it is not all whitespace; the empty string is refused |
| `Trading.PostTransaction` | controllers/transactionController.js:33-105 | guards in order: a blank symbol is refused first; then a missing quote; then a missing user; then an unrecognised action, which stores nothing. A ledger refusal is reported with its reason. Every failure leaves account and records unchanged. An execution applies one ledger step and appends one record with the caller's id and e-mail, the order's symbol, quantity and side, price = the quote, and totalCost = price × quantity |
| `Strings.Trim` | controllers/transactionController.js:37 | `trim()` never lengthens the string, and its result neither starts nor ends with ECMAScript whitespace |
| `Strings.TrimShape` | controllers/transactionController.js:37 | the input is whitespace, then the result character for character, then whitespace: `trim()` removes only whitespace and only at the two ends |
| `Strings.TrimEmptyIff` | controllers/transactionController.js:37 | `trim()` yields the empty string exactly when every character is ECMAScript whitespace |
| `Strings.ToLower` | index.js:59 | lower-casing keeps the length, leaves no ASCII upper-case letter, and changes only the case of each character |
| `Strings.ToUpper` | controllers/transactionController.js:124 | upper-casing keeps the length, leaves no ASCII lower-case letter, and changes only the case of each character |
| `Strings.ToLowerIdempotent` | index.js:95 | lower-casing an already lower-cased e-mail changes nothing |
| `Strings.Decimal` | index.js:51 | the decimal rendering of a number is a non-empty string of digits |
| `Strings.ParseDecimalOfDecimal` | index.js:51 | reading the decimal rendering back gives the original number |
| `Strings.DecimalLength` | index.js:51 | a number with k + 1 digits renders as exactly k + 1 characters |
| `History.Matches` | controllers/transactionController.js:122-129 | a matching record belongs to the caller; with no filter parameter set, every record of the caller matches; under an action filter, the record's action is the filter lower-cased |
| `History.Filter` | controllers/transactionController.js:122-129 | a record is in the result if and only if it is stored and matches, and it appears exactly as often as it is stored |
| `History.SortSelection` | controllers/transactionController.js:131-137 | a sort is chosen if and only if `sortBy` is one of symbol/quantity/price/totalCost; it sorts on that field, and descending if and only if `sortOrder` is "desc" |
| `History.Insert` | controllers/transactionController.js:139 | inserting into a sorted sequence keeps it sorted and adds exactly the one record |
| `History.SortBy` | controllers/transactionController.js:139 | the reference sort returns a permutation of its input, sorted by the key in the requested direction |
| `History.ResultIsTheMatches` | controllers/transactionController.js:122-129 | each record appears in the query result as often as it is stored if it matches, and not at all otherwise; it contains a record if and only if that record is stored and matches; every result belongs to the caller |
| `History.Result` | controllers/transactionController.js:139 | the result is a permutation of the matches; with a whitelisted `sortBy` it is sorted by that key and direction; with none, the order the database leaves unspecified is taken to be insertion order (see "Left out") |
| `History.BoundsInclusive` | controllers/transactionController.js:126-129 | a record whose quantity and price sit exactly on both bounds matches |
| `History.LowerCaseSymbolNeverMatches` | controllers/transactionController.js:124 | under a symbol filter, a record whose symbol contains an ASCII lower-case letter never matches |
| `History.TextLeTotal` | controllers/transactionController.js:135 | the string order used for sorting by symbol is total |
| `History.TextLeTransitive` | controllers/transactionController.js:135 | the string order used for sorting by symbol is transitive |
| `Signup.NormalizeEmail` | index.js:59 | the normalised key has the e-mail's length and is itself normalised |
| `Signup.GenerateOtp` | index.js:50-52 | for a draw in [0, 900000) the OTP is six decimal digits, and its value is 100000 + draw, so it lies in 100000..999999 |
| `Signup.Expired` | index.js:102 | an entry is still valid up to and including 600000 ms after it was made, and expired at any later time |
| `Signup.SignupStep` | index.js:55-88 | refused, with no change, exactly when a user with the lower-cased e-mail exists. Otherwise it stores (hash, pin, OTP, now) under the lower-cased e-mail, replacing any earlier entry, and leaves users alone. The outcome is "sent" or "mail failed", and the entry stays stored either way |
| `Signup.VerifyStep` | index.js:91-125 | no entry under the lower-cased e-mail: refused with no change. Expired: the entry is deleted. Wrong OTP: refused with no change. Otherwise the user is created with the pending hash and pin, default balance and empty portfolio, and the entry is removed |
| `Signup.SignupKeepsWellFormed` | index.js:59-74 | signup keeps keys normalised and keeps no e-mail both pending and registered |
| `Signup.VerifyKeepsWellFormed` | index.js:95-118 | verification keeps keys normalised and keeps no e-mail both pending and registered |
| `Signup.VerifyOutcomes` | index.js:102-118 | for a pending entry: expired if and only if more than 600000 ms elapsed (exactly 600000 is still valid); invalid if and only if unexpired with a different OTP; created if and only if unexpired with the same OTP |
| `Signup.SignupThenVerify` | index.js:69-118 | after a signup, verifying with the mailed OTP within 600000 ms, under any capitalisation of the address, creates the user with the pending hash and pin |
| `Signup.WrongOtpThenRetry` | index.js:107-109 | a wrong OTP leaves the registry unchanged, so a later correct attempt within the lifetime succeeds |
| `Signup.VerifyIsOneShot` | index.js:102-118 | after an account was created or an OTP expired, a second verification for that e-mail finds no request |
| `Signup.NoSecondSignup` | index.js:60-64 | once verification created the user, a new signup for the same address in any capitalisation is refused |
| `Signup.CreatedUserIsFreshAccount` | index.js:111-115 | the user verification creates is stored under its normalised e-mail with the default cash and an empty portfolio, and satisfies the account invariant the trade handler relies on |
| `Signup.SignupService.constructor` | index.js:20 | the server starts with no pending signups and no users |
| `Signup.SignupService.Signup` | index.js:55-88 | the map updates perform exactly `SignupStep` and keep the registry well formed |
| `Signup.SignupService.VerifyOtp` | index.js:91-125 | the map updates and deletions perform exactly `VerifyStep` and keep the registry well formed |

## Left out

- HTTP plumbing (Express routing, status codes, JSON bodies): results are typed outcomes instead.
- JWT verification (`authenticateJWT`, all three copies: `middleware/authenticateJWT.js`, `controllers/transactionController.js` and `index.js`) and the login route: they are calls into `jsonwebtoken` and `bcrypt`. The caller's identity is modelled as the looked-up `Account`.
- Password hashing: the hash is an input string. E-mail delivery is an input flag that says whether `sendMail` succeeded.
- The quote service (`utils/stockUtils.js`) is a network client. Its result is an input: absent when it failed, positive when present.
- Trading.PostTransaction: requires a positive quote. The quote service refuses only a zero price, so a negative quoted price is not modelled.
- Trading.Account.Trade: requires a positive price, for the same reason.
- MongoDB persistence: accounts, users and records are in-memory state. The two separate saves of the trade handler are applied as one step. Failures of a save are not modelled. (Under the proved registry invariant, the duplicate-user failure of the verification save cannot occur.)
- Concurrency: requests are modelled one at a time. The source has no locking, so lost updates between overlapping trades are not modelled.
- Floating point: money is an exact `real`. `Math.random` is a draw in [0, 900000).
- Input types the source never checks. Quantity is modelled as a whole number ≥ 1, so fractional, negative, zero or string quantities are not modelled. Symbol, action, e-mail and OTP are strings. A numeric OTP in the request body, which the strict comparison always rejects, is not modelled.
- History bounds arrive already parsed. What `parseInt`/`parseFloat` do with malformed text (NaN) is not modelled, and neither are repeated query parameters that arrive as arrays.
- Case mapping covers ASCII letters only. JavaScript's full Unicode `toLowerCase`/`toUpperCase` is not modelled.
- The user schema's `trim` on stored e-mails is not modelled.
- Record ids, the `date` field and the timestamps are not modelled. No sort field refers to them.
- Trading.TransactionLog.Find: the order among records with equal sort keys is left unspecified, because the database does not promise one either. With no whitelisted `sortBy` the handler sorts on nothing, and the database promises no order at all (a lookup through the `{userId, symbol, action}` index of `models/Transaction.js` would typically group records by symbol); the model takes insertion order there.
- History.Result: with no whitelisted `sortBy` the database's unspecified order is modelled as insertion order, as for `Trading.TransactionLog.Find`.
- Signup.VerifyStep: the pending table is a plain JavaScript object, and keys that collide with members of `Object.prototype` are not modelled. Only lower-case keys reach it, so the colliding names are `constructor` and `__proto__`. For `constructor` with no own entry, the lookup finds the inherited `Object` function, the expiry test compares `NaN` and is false, and the answer is "Invalid OTP", where the model says no signup request was found.
- Signup.SignupStep: for the key `__proto__`, the assignment replaces the table's prototype instead of adding an entry, which also makes the entry's own fields (`otp`, `pin`) visible under those keys. The model stores an ordinary entry.
- Signup.VerifyIsOneShot: for the key `__proto__`, `delete` removes nothing, so a second verification finds the entry again (and the duplicate user save then fails with a server error). The model's one-shot property holds for every other key.
- `controllers/authController.js` is not part of this model. It is a second signup path that only calls the database, e-mail and bcrypt. `controllers/userController.js` is not part of it either (a portfolio read and a PIN comparison), nor is `controllers/stockController.js` (a quote pass-through).
