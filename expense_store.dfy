/** The module-level store of the endpoint (the `expenses` array and the
    `nextId` counter) and the handler's dispatch on the HTTP method. The
    request and response objects are reduced to the method name, the body
    and the outcome the handler chooses. */
module ExpenseStore {
  import opened JsValues
  import opened ExpenseValidator

  /** A stored record. `amount` is what `parseFloat` made of the body's
      amount; the other fields are the body's values as they came. */
  datatype Expense = Expense(id: int, amount: Number, description: Value, category: Value, date: Value)

  /** What the handler answers; the HTTP status of each is given by Status. */
  datatype Outcome =
    | Ok(expenses: seq<Expense>)
    | Created(expense: Expense)
    | BadRequest(error: string)
    | MethodNotAllowed(allow: seq<string>, error: string)
  {
    function Status(): (code: int)
      ensures (200 <= code < 300) <==> (Ok? || Created?)
      ensures code == 400 <==> BadRequest?
      ensures code == 405 <==> MethodNotAllowed?
    {
      match this
      case Ok(_) => 200
      case Created(_) => 201
      case BadRequest(_) => 400
      case MethodNotAllowed(_, _) => 405
    }
  }

  const SeedExpenses: seq<Expense> := [
    Expense(1, Finite(50.0), Str("Groceries"), Str("Food"), Str("2023-10-26")),
    Expense(2, Finite(15.5), Str("Movie ticket"), Str("Entertainment"), Str("2023-10-25"))
  ]
  const SeedNextId: int := 3

  /** The methods a 405 answer advertises in its Allow header. */
  const AllowedMethods: seq<string> := ["GET", "POST"]

  /** A record as validation lets it through: a positive id, a positive
      amount, a truthy description and category, a date of the right shape. */
  predicate WellFormed(e: Expense) {
    && e.id >= 1
    && IsPositive(e.amount)
    && Truthy(e.description) && Truthy(e.category)
    && MatchesDateFormat(e.date)
  }

  /** The store invariant: well-formed records, ids below the counter and
      increasing from each record to the next. */
  predicate Consistent(s: seq<Expense>, nextId: int) {
    && (forall i :: 0 <= i < |s| ==> WellFormed(s[i]) && s[i].id < nextId)
    && (forall i :: 0 <= i < |s| - 1 ==> s[i].id < s[i + 1].id)
  }

  /** Ids increase along the whole sequence, so no id occurs twice. */
  lemma {:induction false} IdsStrictlyIncreasing(s: seq<Expense>, nextId: int)
    requires Consistent(s, nextId)
    ensures forall i, j :: 0 <= i < j < |s| ==> s[i].id < s[j].id
  {
    if |s| > 1 {
      var init := s[..|s| - 1];
      assert forall i :: 0 <= i < |init| ==> init[i] == s[i];
      IdsStrictlyIncreasing(init, nextId);
      forall i, j | 0 <= i < j < |s|
        ensures s[i].id < s[j].id
      {
        if j == |s| - 1 && i < j - 1 {
          assert init[i].id < init[j - 1].id;
        }
      }
    }
  }

  /** The seed records satisfy the invariant with the counter at 3. */
  lemma SeedConsistent()
    ensures Consistent(SeedExpenses, SeedNextId)
  {
  }

  /** Appending a validated body under the current counter, and bumping the
      counter, keeps the invariant. */
  lemma AppendKeepsConsistent(s: seq<Expense>, nextId: int, body: Payload, parseFloat: Value -> Number)
    requires Consistent(s, nextId) && nextId >= 1
    requires ValidateExpense(body, parseFloat).None?
    ensures Consistent(s + [NewExpense(nextId, body, parseFloat)], nextId + 1)
  {
  }

  /** The record a POST builds from its body, with id `id`. */
  function NewExpense(id: int, body: Payload, parseFloat: Value -> Number): Expense {
    Expense(id, parseFloat(Get(body, "amount")), Get(body, "description"), Get(body, "category"), Get(body, "date"))
  }

  class Store {
    var expenses: seq<Expense>
    var nextId: int

    ghost predicate Valid()
      reads this
    {
      Consistent(expenses, nextId) && nextId >= 1
    }

    /** The state at process start: two seed records, counter at 3. */
    constructor ()
      ensures Valid()
      ensures expenses == SeedExpenses && nextId == SeedNextId
    {
      expenses := SeedExpenses;
      nextId := SeedNextId;
      SeedConsistent();
    }

    /** One request. GET lists the records; POST validates the body and
        either answers 400 with the message, changing nothing, or appends a
        record under the next id and answers 201 with it; any other method
        answers 405, changing nothing. */
    method Handle(httpMethod: string, body: Payload, parseFloat: Value -> Number) returns (out: Outcome)
      requires Valid()
      modifies this
      ensures Valid()
      ensures nextId >= old(nextId)
      ensures httpMethod == "GET" ==>
        out == Ok(old(expenses)) && expenses == old(expenses) && nextId == old(nextId)
      ensures httpMethod == "POST" && ValidateExpense(body, parseFloat).Some? ==>
        && out == BadRequest(ValidateExpense(body, parseFloat).value)
        && expenses == old(expenses) && nextId == old(nextId)
      ensures httpMethod == "POST" && ValidateExpense(body, parseFloat).None? ==>
        && out == Created(NewExpense(old(nextId), body, parseFloat))
        && WellFormed(out.expense)
        && (forall e :: e in old(expenses) ==> e.id < out.expense.id)
        && expenses == old(expenses) + [out.expense]
        && nextId == old(nextId) + 1
      ensures httpMethod != "GET" && httpMethod != "POST" ==>
        && out == MethodNotAllowed(AllowedMethods, "Method " + httpMethod + " Not Allowed")
        && expenses == old(expenses) && nextId == old(nextId)
    {
      match httpMethod
      case "GET" =>
        out := Ok(expenses);
      case "POST" =>
        var validationError := ValidateExpense(body, parseFloat);
        if validationError.Some? {
          out := BadRequest(validationError.value);
          return;
        }
        var expenseToSave := NewExpense(nextId, body, parseFloat);
        AppendKeepsConsistent(expenses, nextId, body, parseFloat);
        nextId := nextId + 1;
        expenses := expenses + [expenseToSave];
        out := Created(expenseToSave);
      case _ =>
        out := MethodNotAllowed(AllowedMethods, "Method " + httpMethod + " Not Allowed");
    }
  }
}
