/** Concrete request bodies run through the routes: the POST and PUT example
    bodies at the end of server.js, a taco body created and deleted again,
    a body carrying its own `id`, and a body that breaks five field rules. */
module Scenarios {
  import opened Wrappers
  import opened Json
  import opened Validation
  import opened ValidationFacts
  import opened Menu
  import opened MenuFacts

  /** On a store that keeps the id invariant, POST of an acceptable body
      without `id` or `available` answers 201 with the counter as id and
      `available` true; deleting that id answers 200, and getting it 404. */
  lemma CreatedThenDeletedIsGone(s: State, body: Record)
    requires IdsOk(s) && Acceptable(body) && "id" !in body && "available" !in body
    ensures var created := CreateItem(s, body);
      var deleted := DeleteItem(created.state, Some(s.currentId));
      && created.response.status == 201
      && created.response.body.ItemBody?
      && ItemId(created.response.body.item) == Some(s.currentId)
      && Lookup(created.response.body.item, "available") == Some(Bool(true))
      && deleted.response == Response(200, MessageOnly("Menu item deleted successfully"))
      && GetItem(deleted.state, Some(s.currentId)).response == NotFound()
  {
    CreateAppendsItem(s, body);
    CreateAssignsFreshId(s, body);
    CreatePreservesIds(s, body);
    var t := CreateItem(s, body).state;
    UniqueIdFound(t, |s.items|, s.currentId);
    DeleteRemovesItem(t, Some(s.currentId));
    DeleteThenNotFound(t, s.currentId);
  }

  // The example request bodies of server.js.

  /** The POST example: a grilled salmon entree. */
  function SalmonBody(): Record {
    map["name" := Str("Grilled Salmon"),
        "description" := Str("Fresh salmon grilled to perfection with lemon butter"),
        "price" := Num(15.99), "category" := Str("entree"),
        "ingredients" := StringArray(["salmon", "lemon", "butter"]), "available" := Bool(true)]
  }

  /** The PUT example: an updated burger. */
  function UpdatedBurgerBody(): Record {
    map["name" := Str("Updated Burger"), "description" := Str("Beef burger with cheese and bacon"),
        "price" := Num(13.99), "category" := Str("entree"),
        "ingredients" := StringArray(["beef", "cheese", "bacon", "bun"]), "available" := Bool(true)]
  }

  /** Both example bodies pass the validator, and neither carries `id`. */
  lemma ExampleBodiesAcceptable()
    ensures Acceptable(SalmonBody()) && "id" !in SalmonBody()
    ensures Acceptable(UpdatedBurgerBody()) && "id" !in UpdatedBurgerBody()
  {
  }

  // A taco body, created and deleted.

  function TacoBody(): Record {
    map["name" := Str("Taco"), "description" := Str("Soft taco with beef and salsa"), "price" := Num(5.5),
        "category" := Str("entree"), "ingredients" := StringArray(["beef", "salsa", "tortilla"])]
  }

  lemma TacoBodyIsAcceptable()
    ensures Acceptable(TacoBody()) && "id" !in TacoBody() && "available" !in TacoBody()
  {
  }

  /** POST the taco to a store whose counter is 7, such as the start-up
      store: 201 with id 7 and `available` true. DELETE
      /api/menu/7: 200. GET /api/menu/7: 404. */
  lemma TacoCreatedDeletedGone(s: State)
    requires IdsOk(s) && s.currentId == 7
    ensures var created := CreateItem(s, TacoBody());
      var deleted := DeleteItem(created.state, Some(7));
      && created.response.status == 201
      && created.response.body.ItemBody?
      && ItemId(created.response.body.item) == Some(7)
      && Lookup(created.response.body.item, "available") == Some(Bool(true))
      && deleted.response == Response(200, MessageOnly("Menu item deleted successfully"))
      && GetItem(deleted.state, Some(7)).response == NotFound()
  {
    TacoBodyIsAcceptable();
    CreatedThenDeletedIsGone(s, TacoBody());
  }

  /** A body may carry its own `id`: the taco body with `"id": 1` passes
      the validator, so ClientIdBreaksUniqueness applies to a store holding
      an item with id 1. */
  lemma ClientIdBodyIsAcceptable()
    ensures Acceptable(TacoBody()["id" := Num(1.0)]) && "id" in TacoBody()["id" := Num(1.0)]
  {
  }

  // A body that breaks five field rules.

  /** Name and description too short, price negative, category unknown,
      ingredients empty, `available` absent. */
  function ShortBody(): Record {
    map["name" := Str("Hi"), "description" := Str("short"), "price" := Num(-1.0),
        "category" := Str("snack"), "ingredients" := Arr([])]
  }

  lemma ShortBodyBreaksFiveRules()
    ensures !NameOk(ShortBody()) && !DescriptionOk(ShortBody()) && !PriceOk(ShortBody())
    ensures !CategoryOk(ShortBody()) && !IngredientsOk(ShortBody()) && AvailableOk(ShortBody())
  {
  }

  /** A body that breaks exactly those five rules is rejected with a
      violation for each of them and none for available, and POST leaves
      the store unchanged. */
  lemma FiveRulesBrokenRejected(s: State, body: Record)
    requires !NameOk(body) && !DescriptionOk(body) && !PriceOk(body)
    requires !CategoryOk(body) && !IngredientsOk(body) && AvailableOk(body)
    ensures exists e :: e in Validate(body) && e.field == Name
    ensures exists e :: e in Validate(body) && e.field == Description
    ensures exists e :: e in Validate(body) && e.field == Price
    ensures exists e :: e in Validate(body) && e.field == Category
    ensures exists e :: e in Validate(body) && e.field == Ingredients
    ensures forall e :: e in Validate(body) ==> e.field != Available
    ensures CreateItem(s, body) == Outcome(s, Invalid(Validate(body)))
  {
    ViolationsNameFailingFields(body);
    assert !FieldOk(body, Name) && !FieldOk(body, Description) && !FieldOk(body, Price);
    assert !FieldOk(body, Category) && !FieldOk(body, Ingredients) && FieldOk(body, Available);
    RejectedBodyChangesNothing(s, None, body);
  }

  /** The five required fields have the right types but values out of
      range, and `available` is absent. */
  predicate OutOfRange(body: Record) {
    && "name" in body && body["name"].Str? && |body["name"].s| < 3
    && "description" in body && body["description"].Str? && |body["description"].s| < 10
    && "price" in body && body["price"].Num? && body["price"].n <= 0.0
    && "category" in body && body["category"].Str? && body["category"].s !in Categories
    && "ingredients" in body && body["ingredients"].Arr? && body["ingredients"].elems == []
    && "available" !in body
  }

  /** What each chain reports on such a body: the one message for a value
      out of range, and nothing for `available`. */
  function OutOfRangeReport(field: Field): seq<Violation> {
    match field
    case Name => [Violation(Name, NameTooShort)]
    case Description => [Violation(Description, DescriptionTooShort)]
    case Price => [Violation(Price, PriceNotPositive)]
    case Category => [Violation(Category, CategoryUnknown)]
    case Ingredients => [Violation(Ingredients, IngredientsEmpty)]
    case Available => []
  }

  lemma OutOfRangeChain(body: Record, field: Field)
    requires OutOfRange(body)
    ensures RunChain(ChainFor(field), body) == OutOfRangeReport(field)
  {
    var c := ChainFor(field);
    var v := Lookup(body, Key(field));
    match field
    case Name =>
      assert RunRules(Name, c.rules[1..], v) == [Violation(Name, NameTooShort)];
    case Description =>
      assert RunRules(Description, c.rules[1..], v) == [Violation(Description, DescriptionTooShort)];
    case Price =>
    case Category =>
    case Ingredients =>
    case Available =>
  }

  /** The reports of a list of chains on such a body, in list order. */
  function OutOfRangeReports(chains: seq<Chain>): seq<Violation> {
    if chains == [] then [] else OutOfRangeReport(chains[0].field) + OutOfRangeReports(chains[1..])
  }

  lemma {:induction false} OutOfRangeChains(chains: seq<Chain>, body: Record)
    requires Declared(chains) && OutOfRange(body)
    ensures RunChains(chains, body) == OutOfRangeReports(chains)
  {
    if chains != [] {
      assert chains[0] == ChainFor(chains[0].field);
      OutOfRangeChain(body, chains[0].field);
      assert Declared(chains[1..]) by {
        assert forall k :: 1 <= k < |chains| ==> chains[1..][k - 1] == chains[k];
      }
      OutOfRangeChains(chains[1..], body);
    }
  }

  lemma MenuItemOutOfRangeReports()
    ensures OutOfRangeReports(MenuItemChains()) == [Violation(Name, NameTooShort),
      Violation(Description, DescriptionTooShort), Violation(Price, PriceNotPositive),
      Violation(Category, CategoryUnknown), Violation(Ingredients, IngredientsEmpty)]
  {
    var cs := MenuItemChains();
    assert cs[5..][1..] == [] && cs[5].field == Available;
    assert OutOfRangeReports(cs[5..]) == [];
    assert cs[4..][1..] == cs[5..] && cs[4].field == Ingredients;
    assert OutOfRangeReports(cs[4..]) == [Violation(Ingredients, IngredientsEmpty)];
    assert cs[3..][1..] == cs[4..] && cs[3].field == Category;
    assert cs[2..][1..] == cs[3..] && cs[2].field == Price;
    assert cs[1..][1..] == cs[2..] && cs[1].field == Description;
    assert cs[0..] == cs && cs[0..][1..] == cs[1..] && cs[0].field == Name;
  }

  /** Such a body gets exactly one violation per required field: the
      length, bound, category and minimum-items messages, in declaration
      order. */
  lemma OutOfRangeViolations(body: Record)
    requires OutOfRange(body)
    ensures Validate(body) == [Violation(Name, NameTooShort), Violation(Description, DescriptionTooShort),
      Violation(Price, PriceNotPositive), Violation(Category, CategoryUnknown), Violation(Ingredients, IngredientsEmpty)]
  {
    MenuItemChainsDeclared();
    OutOfRangeChains(MenuItemChains(), body);
    MenuItemOutOfRangeReports();
  }

  /** POST of the short body: 400 with exactly those five violations, and
      the store unchanged. */
  lemma ShortBodyRejected(s: State)
    ensures Validate(ShortBody()) == [Violation(Name, NameTooShort), Violation(Description, DescriptionTooShort),
      Violation(Price, PriceNotPositive), Violation(Category, CategoryUnknown), Violation(Ingredients, IngredientsEmpty)]
    ensures CreateItem(s, ShortBody()) == Outcome(s, Invalid(Validate(ShortBody())))
  {
    OutOfRangeViolations(ShortBody());
    ShortBodyBreaksFiveRules();
    RejectedBodyChangesNothing(s, None, ShortBody());
  }
}
