/** Example requests, each run against a freshly seeded store. `parseFloat`
    is a parameter; each example requires only what `parseFloat` returns for
    the amount it sends. */
module Scenarios {
  import opened JsValues
  import opened DateFormat
  import opened ExpenseValidator
  import opened ExpenseStore

  function Body(amount: Value, description: string, category: string, date: string): Payload {
    map["amount" := amount, "description" := Str(description), "category" := Str(category), "date" := Str(date)]
  }

  /** A fresh store lists the two seed records, and listing twice gives the
      same answer. */
  method ListFreshStore(parseFloat: Value -> Number) returns (first: Outcome, second: Outcome)
    ensures first == second == Ok(SeedExpenses)
    ensures first.expenses[0].id == 1 && first.expenses[1].id == 2
  {
    var store := new Store();
    first := store.Handle("GET", map[], parseFloat);
    second := store.Handle("GET", map[], parseFloat);
  }

  /** A valid POST to a fresh store creates record 3, which a following GET
      shows, unchanged, as the last record. */
  method CreateCoffee(parseFloat: Value -> Number) returns (created: Outcome, listed: Outcome)
    requires parseFloat(Num(12.5)) == Finite(12.5)
    ensures created == Created(Expense(3, Finite(12.5), Str("Coffee"), Str("Food"), Str("2023-11-01")))
    ensures created.Status() == 201
    ensures listed == Ok(SeedExpenses + [created.expense])
  {
    var store := new Store();
    var body := Body(Num(12.5), "Coffee", "Food", "2023-11-01");
    DatePatternIsDateShape("2023-11-01");
    AllPresentFieldByField(body);
    created := store.Handle("POST", body, parseFloat);
    listed := store.Handle("GET", map[], parseFloat);
  }

  /** A negative amount is rejected with the amount message and the store
      is left as it was. */
  method RejectNegativeAmount(parseFloat: Value -> Number) returns (rejected: Outcome, listed: Outcome)
    requires parseFloat(Num(-5.0)) == Finite(-5.0)
    ensures rejected == BadRequest("Amount must be a positive number")
    ensures rejected.Status() == 400
    ensures listed == Ok(SeedExpenses)
  {
    var store := new Store();
    var body := Body(Num(-5.0), "X", "Y", "2023-01-01");
    AllPresentFieldByField(body);
    AmountCheckedBeforeDate(body, parseFloat);
    rejected := store.Handle("POST", body, parseFloat);
    listed := store.Handle("GET", map[], parseFloat);
  }

  /** A day-month-year date is rejected with the date message. */
  method RejectDayFirstDate(parseFloat: Value -> Number) returns (rejected: Outcome, listed: Outcome)
    requires parseFloat(Num(10.0)) == Finite(10.0)
    ensures rejected == BadRequest("Date must be in YYYY-MM-DD format")
    ensures listed == Ok(SeedExpenses)
  {
    var store := new Store();
    var body := Body(Num(10.0), "X", "Y", "01-01-2023");
    AllPresentFieldByField(body);
    StringDateDecidedByShape(body, parseFloat, "01-01-2023");
    DatePatternIsDateShape("01-01-2023");
    rejected := store.Handle("POST", body, parseFloat);
    listed := store.Handle("GET", map[], parseFloat);
  }

  /** DELETE is not allowed: 405, Allow lists GET and POST, nothing changes. */
  method RejectDelete(parseFloat: Value -> Number) returns (rejected: Outcome, listed: Outcome)
    ensures rejected == MethodNotAllowed(["GET", "POST"], "Method DELETE Not Allowed")
    ensures rejected.Status() == 405
    ensures listed == Ok(SeedExpenses)
  {
    var store := new Store();
    rejected := store.Handle("DELETE", map[], parseFloat);
    listed := store.Handle("GET", map[], parseFloat);
  }
}
