# Expense endpoint — a Dafny model

A model of `api/expenses.js`, a serverless endpoint that keeps expense records
in memory. It has two parts:

- **the validator** `validateExpense`. It checks a request body's `amount`,
  `description`, `category` and `date` in a fixed order. It returns the first
  failure's message, or `null` when every check passes.
- **the store and the dispatch** of the exported handler. The store is the
  module-level `expenses` array, seeded with records 1 and 2, and the
  `nextId` counter, starting at 3. GET lists the records. POST validates the
  body; on success it appends a record with the next id and returns it. Any
  other method gets 405.

Modules:

- `Wrappers` (wrappers.dfy): `Option`. `None` stands for the source's `null`.
- `JsValues` (js_values.dfy): the body's property values. Defines truthiness
  (`!x`), nullishness (`=== undefined || === null`) and the numbers that
  `parseFloat` can return, NaN and the infinities included.
- `DateFormat` (date_format.dfy): the regular expression
  `^\d{4}-\d{2}-\d{2}$`, written as a list of fixed-count pieces, with a
  full-string matcher. It is proved equal to a position-by-position
  description of the date shape.
- `ExpenseValidator` (expense_validator.dfy): `ValidateExpense` and the
  lemmas about the order of its checks.
- `ExpenseStore` (expense_store.dfy): the `Store` class, with a
  `seq<Expense>` field and a `nextId` field. Its `Handle` method models one
  request. The invariant `Consistent` holds from the seed state and is kept
  by every request. It says that ids increase, stay below `nextId`, and that
  every record is well formed.
- `Scenarios` (scenarios.dfy): example requests against a freshly
  constructed store.

`parseFloat` is a parameter of type `Value -> Number`. The validator (line 24)
and the record construction (line 64) receive the same function. Properties
that depend on parsing are stated in terms of its result.

The error messages are the code's own, for example "Missing required field:
amount" and "Date must be in YYYY-MM-DD format". `validateExpense` returns
only a message or `null`; it hands back no parsed record. The handler calls
`parseFloat` again itself at line 64 to build the record.

## Model

| member | source | states |
|---|---|---|
| `JsValues.RejectedIffNotPositive` | api/expenses.js:25 | `isNaN(n) \|\| n <= 0` rejects exactly the numbers that are not strictly positive. Infinity is positive; NaN and -Infinity are not. |
| `DateFormat.FullMatchWidth` | api/expenses.js:30 | A string that fully matches a fixed-count pattern is as long as the pattern is wide. |
| `DateFormat.DatePatternIsDateShape` | api/expenses.js:30 | `^\d{4}-\d{2}-\d{2}$` matches a string iff it has 10 characters, hyphens at offsets 4 and 7, and ASCII digits everywhere else. Both directions are proved. |
| `DateFormat.LexicalOnly` | api/expenses.js:30-32 | There is no calendar check: `2023-13-99` matches and `01-01-2023` does not. |
| `ExpenseValidator.AllPresentFieldByField` | api/expenses.js:18-21 | "All required fields present" is the same as the four presence checks of the source. |
| `ExpenseValidator.ValidateExpense` | api/expenses.js:14-35 | Returns `null` iff the body is acceptable: all four fields present, the parsed amount positive, the date of the right shape. Otherwise it returns one of the six messages. |
| `ExpenseValidator.FirstMissingFieldReported` | api/expenses.js:18-21 | When several fields are missing, the first one in the order amount, description, category, date is reported. |
| `ExpenseValidator.ZeroAmountIsPresentEmptyStringIsNot` | api/expenses.js:18-27 | An amount of 0 passes the presence check and fails with "Amount must be a positive number". An empty description is reported missing. |
| `ExpenseValidator.AmountCheckedBeforeDate` | api/expenses.js:24-32 | Once all fields are present, the result is the amount message iff the parsed amount is not positive, whatever the date. |
| `ExpenseValidator.DateDecidesOnceAmountValid` | api/expenses.js:29-34 | Once all fields are present and the amount is positive, a date of any kind (string, number, boolean, array or object) is accepted iff it matches the pattern. Otherwise the date message is returned. |
| `ExpenseValidator.StringDateDecidedByShape` | api/expenses.js:29-34 | For a string date under the same conditions: accepted iff it has the shape dddd-dd-dd, otherwise the date message is returned. |
| `ExpenseStore.Outcome.Status` | api/expenses.js:45-80 | GET and a successful POST answer 2xx, a validation failure answers 400, and any other method answers 405. |
| `ExpenseStore.IdsStrictlyIncreasing` | api/expenses.js:62-70 | Under the store invariant, ids strictly increase along the whole sequence, so no id occurs twice. |
| `ExpenseStore.SeedConsistent` | api/expenses.js:2-7 | The seed records (ids 1 and 2) with `nextId = 3` satisfy the store invariant. |
| `ExpenseStore.AppendKeepsConsistent` | api/expenses.js:61-70 | Appending the record built from a validated body under the current counter, and incrementing the counter, keeps the invariant. |
| `ExpenseStore.Store.constructor` | api/expenses.js:2-7 | The initial store holds exactly the two seed records and `nextId = 3`, and satisfies the invariant. |
| `ExpenseStore.Store.Handle` | api/expenses.js:45-80 | GET returns the records and changes nothing. A failed POST returns 400 with the validator's message and changes neither the records nor `nextId`. A successful POST appends exactly one well-formed record with id equal to the old `nextId`, which exceeds every earlier id, increments `nextId` by one and returns the new last record. Any other method returns 405 with Allow = [GET, POST] and changes nothing. The invariant is kept, and `nextId` never decreases. |
| `Scenarios.ListFreshStore` | api/expenses.js:2-7 | A fresh store lists records 1 and 2, and two GETs in a row answer identically. |
| `Scenarios.CreateCoffee` | api/expenses.js:61-73 | A valid POST to a fresh store returns record 3 with the posted fields. A following GET shows it, unchanged, as the last record. |
| `Scenarios.RejectNegativeAmount` | api/expenses.js:24-27 | An amount of -5 gets 400 "Amount must be a positive number", and the store is unchanged. |
| `Scenarios.RejectDayFirstDate` | api/expenses.js:30-32 | The date `01-01-2023` gets 400 "Date must be in YYYY-MM-DD format", and the store is unchanged. |
| `Scenarios.RejectDelete` | api/expenses.js:76-80 | DELETE gets 405 with Allow = [GET, POST], and the store is unchanged. |

## Left out

- The request and response objects (`status`, `json`, `setHeader`) and the `async` wrapper. The handler returns the outcome it would send instead.
- The `try`/`catch` that answers 500 (lines 82-86), and the logging in it. The 500 path is reachable. An object whose string conversion throws makes `regex.test` (line 30) or `parseFloat` (line 24) throw a TypeError. An example is a date of `{"toString":1}`. `Value` cannot represent such values: `Compound` assumes a `String()` form exists. For those bodies the model answers 400 or 201 where the source answers 500. Both conversions run before `nextId++` (line 63) and `push` (line 70), so the source's store is unchanged on that path too.
- `parseFloat`'s own semantics, such as prefix parsing (`"12abc"` gives 12) and rounding to doubles. It is a parameter, and properties are stated in terms of what it returns.
- Number values in the body are finite reals. JSON delivers no NaN, and overflow to Infinity while parsing JSON is not modelled.
- The `typeof numericAmount !== 'number'` test (line 25) is always false after `parseFloat`, so the model leaves it out. This does not change behaviour.
- The string conversion that `regex.test` applies to a non-string date is modelled only as far as it matters. Arrays and objects carry their `String()` form. Numbers, booleans, `null` and `undefined` never match the pattern.
- The id counter is an unbounded integer. In the source `nextId` is a double, so from 2^53 on `nextId++` (line 63) no longer advances, and ids would repeat. Reaching that limit takes 2^53 POSTs, which is out of reach in practice.
- Persistence and resets when the container spins down (line 1). The model starts from the seed state once.
- Concurrent invocations. Each request is one atomic step.
