/** The `validateMenuItem` middleware: one validation chain per body field,
    run in declaration order. Every check of every chain runs, and each
    failed check contributes its own message, so the result lists all
    violations rather than the first. An empty list means "accepted". */
module Validation {
  import opened Wrappers
  import opened Json

  /** The body fields the middleware checks. */
  datatype Field = Name | Description | Price | Category | Ingredients | Available

  /** The JSON key of each field. */
  function Key(field: Field): string {
    match field
    case Name => "name"
    case Description => "description"
    case Price => "price"
    case Category => "category"
    case Ingredients => "ingredients"
    case Available => "available"
  }

  /** The express-validator checks the chains use. */
  datatype Check =
    | IsString
    | MinLength(min: nat)
    | FloatGreaterThan(bound: real)
    | IsIn(allowed: set<string>)
    | IsArray(minItems: nat)
    | IsBoolean

  /** The `withMessage` texts; `Text` gives each one's wording. */
  datatype Message =
    | NameNotString
    | NameTooShort
    | DescriptionNotString
    | DescriptionTooShort
    | PriceNotPositive
    | CategoryUnknown
    | IngredientsEmpty
    | AvailableNotBoolean

  function Text(message: Message): string {
    match message
    case NameNotString => "Name must be a string"
    case NameTooShort => "Name must be at least 3 characters"
    case DescriptionNotString => "Description must be a string"
    case DescriptionTooShort => "Description must be at least 10 characters"
    case PriceNotPositive => "Price must be greater than 0"
    case CategoryUnknown => "Category must be appetizer, entree, dessert, or beverage"
    case IngredientsEmpty => "Ingredients must be an array with at least one item"
    case AvailableNotBoolean => "Available must be true or false"
  }

  datatype Rule = Rule(check: Check, message: Message)

  /** `body(field)`, optionally followed by `.optional()`, then its rules. */
  datatype Chain = Chain(field: Field, optional: bool, rules: seq<Rule>)

  /** One entry of the 400 response's `errors` array: the field it is
      about and the rule's message. */
  datatype Violation = Violation(field: Field, message: Message)

  const Categories: set<string> := {"appetizer", "entree", "dessert", "beverage"}

  /** The chain the middleware declares for each field. */
  function ChainFor(field: Field): (chain: Chain)
    ensures chain.field == field
  {
    match field
    case Name =>
      Chain(Name, false, [Rule(IsString, NameNotString),
                          Rule(MinLength(3), NameTooShort)])
    case Description =>
      Chain(Description, false, [Rule(IsString, DescriptionNotString),
                                 Rule(MinLength(10), DescriptionTooShort)])
    case Price =>
      Chain(Price, false, [Rule(FloatGreaterThan(0.0), PriceNotPositive)])
    case Category =>
      Chain(Category, false, [Rule(IsIn(Categories), CategoryUnknown)])
    case Ingredients =>
      Chain(Ingredients, false, [Rule(IsArray(1), IngredientsEmpty)])
    case Available =>
      Chain(Available, true, [Rule(IsBoolean, AvailableNotBoolean)])
  }

  /** The fields in the order the middleware declares their chains. */
  const Fields: seq<Field> := [Name, Description, Price, Category, Ingredients, Available]

  function MenuItemChains(): seq<Chain> {
    [ChainFor(Name), ChainFor(Description), ChainFor(Price), ChainFor(Category),
     ChainFor(Ingredients), ChainFor(Available)]
  }

  /** Whether one check accepts the field's value (None: the key is absent). */
  predicate Passes(check: Check, v: Option<Value>) {
    match check
    case IsString => v.Some? && v.value.Str?
    case MinLength(min) => v.Some? && v.value.Str? && |v.value.s| >= min
    case FloatGreaterThan(bound) => v.Some? && v.value.Num? && v.value.n > bound
    case IsIn(allowed) => v.Some? && v.value.Str? && v.value.s in allowed
    case IsArray(minItems) => v.Some? && v.value.Arr? && |v.value.elems| >= minItems
    case IsBoolean => v.Some? && v.value.Bool?
  }

  /** The messages of the failed rules, in rule order. */
  function RunRules(field: Field, rules: seq<Rule>, v: Option<Value>): (errors: seq<Violation>)
    ensures |errors| <= |rules|
    ensures forall e :: e in errors ==> e.field == field
    ensures errors == [] <==> forall i :: 0 <= i < |rules| ==> Passes(rules[i].check, v)
  {
    if rules == [] then []
    else
      var rest := RunRules(field, rules[1..], v);
      assert forall i :: 1 <= i < |rules| ==> rules[i] == rules[1..][i - 1];
      (if Passes(rules[0].check, v) then [] else [Violation(field, rules[0].message)]) + rest
  }

  /** An optional chain is skipped when the key is absent. */
  function RunChain(chain: Chain, body: Record): seq<Violation> {
    var v := Lookup(body, Key(chain.field));
    if chain.optional && v.None? then [] else RunRules(chain.field, chain.rules, v)
  }

  function RunChains(chains: seq<Chain>, body: Record): seq<Violation> {
    if chains == [] then [] else RunChain(chains[0], body) + RunChains(chains[1..], body)
  }

  /** `validationResult(req).array()` after the six chains have run. */
  function Validate(body: Record): seq<Violation> {
    RunChains(MenuItemChains(), body)
  }

  // Reference definition: the field rules of a menu item, stated directly.

  predicate NameOk(body: Record) {
    "name" in body && body["name"].Str? && |body["name"].s| >= 3
  }

  predicate DescriptionOk(body: Record) {
    "description" in body && body["description"].Str? && |body["description"].s| >= 10
  }

  predicate PriceOk(body: Record) {
    "price" in body && body["price"].Num? && body["price"].n > 0.0
  }

  predicate CategoryOk(body: Record) {
    "category" in body && body["category"].Str? && body["category"].s in Categories
  }

  predicate IngredientsOk(body: Record) {
    "ingredients" in body && body["ingredients"].Arr? && |body["ingredients"].elems| >= 1
  }

  /** `available` is optional; when present it must be a boolean. */
  predicate AvailableOk(body: Record) {
    "available" in body ==> body["available"].Bool?
  }

  predicate FieldOk(body: Record, field: Field) {
    match field
    case Name => NameOk(body)
    case Description => DescriptionOk(body)
    case Price => PriceOk(body)
    case Category => CategoryOk(body)
    case Ingredients => IngredientsOk(body)
    case Available => AvailableOk(body)
  }

  predicate Acceptable(body: Record) {
    NameOk(body) && DescriptionOk(body) && PriceOk(body) && CategoryOk(body) && IngredientsOk(body) && AvailableOk(body)
  }
}
