/** `validateExpense`: a short-circuiting chain of checks over the request
    body that returns the first failure's message, or `null` when every
    check passes. It reads nothing but its arguments. */
module ExpenseValidator {
  import opened Wrappers
  import opened JsValues
  import opened DateFormat

  const MissingAmount := MissingMessage("amount")
  const MissingDescription := MissingMessage("description")
  const MissingCategory := MissingMessage("category")
  const MissingDate := MissingMessage("date")
  const AmountNotPositive := "Amount must be a positive number"
  const BadDateFormat := "Date must be in YYYY-MM-DD format"

  /** The required fields, in the order their presence is checked. */
  const RequiredFields: seq<string> := ["amount", "description", "category", "date"]

  /** The message reported when required field `name` is missing. */
  function MissingMessage(name: string): string {
    "Missing required field: " + name
  }

  /** Presence as each check defines it: `amount` only has to be neither
      `undefined` nor `null`, the other three fields have to be truthy. */
  predicate Present(body: Payload, name: string) {
    if name == "amount" then !Nullish(Get(body, name)) else Truthy(Get(body, name))
  }

  /** `regex.test(v)` converts `v` to a string first. The string form of
      `undefined`, `null`, a boolean or a number never has a hyphen at
      offsets 4 and 7 after four digits, so only strings, arrays and objects
      can match. */
  predicate MatchesDateFormat(v: Value) {
    match v
    case Str(s) => FullMatch(DatePattern, s)
    case Compound(text) => FullMatch(DatePattern, text)
    case _ => false
  }

  /** Every required field is present. */
  predicate AllPresent(body: Payload) {
    forall j :: 0 <= j < |RequiredFields| ==> Present(body, RequiredFields[j])
  }

  lemma AllPresentFieldByField(body: Payload)
    ensures AllPresent(body) <==>
      Present(body, "amount") && Present(body, "description") && Present(body, "category") && Present(body, "date")
  {
    assert RequiredFields[0] == "amount" && RequiredFields[1] == "description";
    assert RequiredFields[2] == "category" && RequiredFields[3] == "date";
  }

  /** What a valid body is, stated as one conjunction: every field present,
      the parsed amount positive, the date of the right shape. */
  predicate Acceptable(body: Payload, parseFloat: Value -> Number) {
    && AllPresent(body)
    && IsPositive(parseFloat(Get(body, "amount")))
    && MatchesDateFormat(Get(body, "date"))
  }

  /** The validator itself; `None` is the source's `null`. */
  function ValidateExpense(body: Payload, parseFloat: Value -> Number): (r: Option<string>)
    ensures r.None? <==> Acceptable(body, parseFloat)
    ensures r.Some? ==>
      r.value in {MissingAmount, MissingDescription, MissingCategory, MissingDate, AmountNotPositive, BadDateFormat}
  {
    AllPresentFieldByField(body);
    var amount, description, category, date :=
      Get(body, "amount"), Get(body, "description"), Get(body, "category"), Get(body, "date");
    if amount.Undefined? || amount.Null? then Some(MissingAmount)
    else if !Truthy(description) then Some(MissingDescription)
    else if !Truthy(category) then Some(MissingCategory)
    else if !Truthy(date) then Some(MissingDate)
    else
      var numericAmount := parseFloat(amount);
      if IsNaN(numericAmount) || AtMostZero(numericAmount) then Some(AmountNotPositive)
      else if !MatchesDateFormat(date) then Some(BadDateFormat)
      else None
  }

  /** A body missing several fields reports the first of them in the order
      amount, description, category, date. */
  lemma FirstMissingFieldReported(body: Payload, parseFloat: Value -> Number, i: nat)
    requires i < |RequiredFields|
    requires !Present(body, RequiredFields[i])
    requires forall j :: 0 <= j < i ==> Present(body, RequiredFields[j])
    ensures ValidateExpense(body, parseFloat) == Some(MissingMessage(RequiredFields[i]))
  {
    if i > 0 { assert Present(body, RequiredFields[0]); }
    if i > 1 { assert Present(body, RequiredFields[1]); }
    if i > 2 { assert Present(body, RequiredFields[2]); }
  }

  /** Presence of the amount is nullishness, not truthiness: an amount of 0
      gets past the presence checks and fails the positive-amount check,
      while an empty description is reported missing. */
  lemma ZeroAmountIsPresentEmptyStringIsNot(body: Payload, parseFloat: Value -> Number)
    requires Get(body, "amount") == Num(0.0)
    requires parseFloat(Num(0.0)) == Finite(0.0)
    ensures Truthy(Get(body, "description")) && Truthy(Get(body, "category")) && Truthy(Get(body, "date"))
            ==> ValidateExpense(body, parseFloat) == Some(AmountNotPositive)
    ensures Get(body, "description") == Str("") ==> ValidateExpense(body, parseFloat) == Some(MissingDescription)
  {
  }

  /** Once all four fields are present, an amount that does not parse to a
      positive number is reported, whatever the date. */
  lemma AmountCheckedBeforeDate(body: Payload, parseFloat: Value -> Number)
    requires AllPresent(body)
    ensures ValidateExpense(body, parseFloat) == Some(AmountNotPositive)
            <==> !IsPositive(parseFloat(Get(body, "amount")))
  {
    AllPresentFieldByField(body);
  }

  /** Once the fields are present and the amount is valid, the outcome is
      decided by the date alone, whatever kind of value it is: accepted iff
      it matches the pattern, and rejected with the date-format message
      otherwise. */
  lemma DateDecidesOnceAmountValid(body: Payload, parseFloat: Value -> Number)
    requires AllPresent(body)
    requires IsPositive(parseFloat(Get(body, "amount")))
    ensures ValidateExpense(body, parseFloat) ==
      if MatchesDateFormat(Get(body, "date")) then None else Some(BadDateFormat)
  {
    AllPresentFieldByField(body);
  }

  /** For a string date this means: accepted iff it has the shape
      dddd-dd-dd, and rejected with the date-format message otherwise. */
  lemma StringDateDecidedByShape(body: Payload, parseFloat: Value -> Number, date: string)
    requires AllPresent(body)
    requires IsPositive(parseFloat(Get(body, "amount")))
    requires Get(body, "date") == Str(date)
    ensures ValidateExpense(body, parseFloat) == if IsDateShape(date) then None else Some(BadDateFormat)
  {
    DateDecidesOnceAmountValid(body, parseFloat);
    DatePatternIsDateShape(date);
  }
}
