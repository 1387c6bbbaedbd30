# Menu API store: a Dafny model

This project models the core of a small Express server (`server.js`) that keeps restaurant menu items in memory and serves them over a REST API. That core is:

- the module-level `menuItems` list, seeded with six items whose ids are 1 to 6;
- the `currentId` counter, which starts at 7;
- the `validateMenuItem` middleware, which checks a request body field by field before POST and PUT;
- the five route handlers: list, get by id, create, replace and delete.

The model is in five modules.

- `Wrappers` (wrappers.dfy) holds `Option`.
- `Json` (json.dfy) holds parsed JSON values. A request body and a stored item are both key/value `Record`s, because the handlers spread the body into the stored item.
- `Validation` (validation.dfy) writes the middleware as data: one `Chain` per field, each holding `Rule`s (an express-validator check plus its message). An interpreter runs every rule of every chain and collects one `Violation` (field, message) per failed rule, in declaration order. Beside it, `Acceptable` states each field rule directly. `ValidationFacts` (validation_facts.dfy) proves that the two agree.
- `Menu` (menu.dfy) is the store as a state machine over values. `State` holds the items and the counter. Each route is a function from a state to an `Outcome` (the new state plus the status code and JSON body). `Step` and `Run` replay request sequences. `MenuFacts` (menu_facts.dfy) proves what each route does. It also proves the store invariant `IdsOk`: every item has an integer id below the counter, and no two items share one.
- `Server` (server.dfy) is the imperative form. Class `MenuServer` holds the list and the counter as fields. `findIndex` and `find` are linear-scan methods with loop invariants, and each route is a method that updates the fields in place. Each method is proved equal to the matching `Menu` function, as a postcondition. `Scenarios` (scenarios.dfy) runs concrete bodies through the general lemmas: the POST and PUT example bodies in the comment at the end of server.js, a taco body that is created and deleted again, a body carrying its own `id`, and a body that breaks five field rules.

Points where the code's behaviour is easy to misread:

- **Ids from the client.** A client-supplied `id` is not ignored. POST and PUT spread the body after `id` (server.js:134-136, 148), so a body `id` replaces the assigned or kept id. The model keeps that override. The invariant lemmas therefore require a body without `id`. `ClientIdBreaksUniqueness` shows that an accepted body carrying an existing id leaves two items with that id, and `ClientIdBodyIsAcceptable` shows that the validator lets such a body through. `ReplaceOverwritesItem` shows that PUT stores the body's `id` when there is one.
- **Ingredients.** server.js only checks for an array with at least one element, of any kind (server.js:101-102). The elements are not checked to be strings, and the model does the same.
- **Extra keys.** Body keys that no rule mentions are accepted, stored and returned.
- **The `available` default.** POST uses `??`, which also replaces `null`. The validator already rejects a `null` `available`, so on accepted bodies only a missing key gets the default `true`. PUT applies no default.
- **Numbers.** Numbers are mathematical reals. Only `price > 0` and integer equality of ids matter.
- **The path `:id`.** It is an `Option<int>`. `None` stands for a `parseInt` result of `NaN`, which matches no item.

## Model

| member | source | states |
|---|---|---|
| Validation.RunRules | server.js:86-106 | the result is empty iff every check of the chain passes, each violation names the chain's field, and there is at most one per rule; RunRulesReportsEachFailure proves that every rule runs |
| ValidationFacts.RunRulesReportsEachFailure | server.js:86-106 | every rule of a chain runs: each failing rule contributes a violation with its own message, and each reported message is that of a failing rule |
| Validation.ChainFor | server.js:86-106 | the chain declared for a field (its checks, messages and whether it is optional); ChainMatchesRule proves what it accepts |
| Validation.MenuItemChains | server.js:85-106 | the six chains in declaration order; MenuItemChainsDeclared and Position state their order |
| Validation.Passes | server.js:87-106 | what each express-validator check accepts; ChainMatchesRule ties it to the field rules |
| Validation.RunChain | server.js:104-106 | an optional chain is skipped when its key is absent; ChainMatchesRule states its result |
| Validation.RunChains | server.js:108-113 | the violations of all chains, in order; InRunChains and DeclaredChainsQuiet state its result |
| Validation.Validate | server.js:85-117 | `validationResult(req).array()`; ValidateAcceptsIff and ViolationsNameFailingFields state its result |
| ValidationFacts.InRunChains | server.js:108-115 | a violation is in the collected errors iff some chain reported it |
| ValidationFacts.ChainMatchesRule | server.js:86-106 | each declared chain reports nothing iff its field rule holds (name a string of length at least 3, description a string of length at least 10, price a number above 0, category one of the four, ingredients an array with at least one element, available absent or boolean), and its violations name that field |
| ValidationFacts.Position | server.js:86-106 | each field's chain stands at a fixed place in the declared chain list |
| ValidationFacts.MenuItemChainsDeclared | server.js:86-106 | every entry of the chain list is the chain declared for its field |
| ValidationFacts.DeclaredChainsQuiet | server.js:108-115 | declared chains together report nothing iff the rules of all their fields hold |
| ValidationFacts.DeclaredChainsReportFailures | server.js:108-115 | every violation collected from declared chains names a field whose rule fails |
| ValidationFacts.DeclaredChainReportsField | server.js:108-115 | a declared chain whose field rule fails contributes a violation naming that field to the collected errors |
| ValidationFacts.ValidateAcceptsIff | server.js:85-117 | the middleware lets a body through (no errors) iff it satisfies all six field rules |
| ValidationFacts.ViolationIsFailure | server.js:85-117 | a violation the middleware reports names a field whose rule fails |
| ValidationFacts.FailureIsReported | server.js:85-117 | a field whose rule fails is named by at least one reported violation |
| ValidationFacts.ViolationsNameFailingFields | server.js:85-117 | every reported violation names one of the six fields and that field's rule fails; every failing field is named by at least one violation |
| Menu.HasId | server.js:127 | `m.id === parseInt(req.params.id)`; HasIdIffItemId and NoNumberNoMatch state when it holds |
| Menu.Find | server.js:127 | `menuItems.find`; FindAgreesWithIndexOf ties it to IndexOf |
| Menu.IndexOf | server.js:145 | `findIndex`: -1 when no item has the id, else the first position whose item has it |
| MenuFacts.HasIdIffItemId | server.js:127 | `m.id === id` for an integer id holds iff the item's id is that integer |
| MenuFacts.FindAgreesWithIndexOf | server.js:127 | `find` returns the item at the position `findIndex` reports, or nothing when it reports -1 |
| MenuFacts.NoNumberNoMatch | server.js:127 | a path id that does not parse to a number matches no item |
| MenuFacts.UniqueIdFound | server.js:145 | with distinct ids, the lookup of an item's id finds exactly that item |
| Menu.StartState | server.js:26-82 | the seed items numbered in order and the counter after them; StartStateIdsOk states its properties |
| MenuFacts.DishItemId | server.js:27-35 | a seed record carries its integer id |
| MenuFacts.DishItemFields | server.js:27-35 | a seed record holds the dish's name, description, price, category, ingredients and availability under their JSON keys |
| MenuFacts.DishItemAcceptable | server.js:27-35 | a seed record passes the field rules iff its name, description, price, category and ingredients meet them |
| MenuFacts.StartStateIdsOk | server.js:26-82 | the start-up store numbers the seed items 1 to n in order, sets the counter to n + 1, and keeps the id invariant |
| Menu.NewItem | server.js:134-138 | the POST item: `id` first, then the body's fields, then `available` with its default; CreateAppendsItem and CreateAssignsFreshId state its contents |
| Menu.Overwrite | server.js:148 | the PUT item: the kept `id`, then the body's fields; ReplaceOverwritesItem states its contents |
| Menu.RemoveAt | server.js:157 | `splice(index, 1)`; DeleteRemovesItem states its result |
| Menu.ListItems | server.js:121-123 | GET of the list; Server.MenuServer.List states its answer |
| Menu.GetItem | server.js:126-130 | GET by id; GetFindsFirst states its answer |
| Menu.CreateItem | server.js:133-141 | POST; RejectedBodyChangesNothing, CreateAppendsItem, CreateAssignsFreshId and CreatePreservesIds state its effect |
| Menu.ReplaceItem | server.js:144-150 | PUT; RejectedBodyChangesNothing, ReplaceOverwritesItem, ReplaceMissingIsNotFound and ReplacePreservesIds state its effect |
| Menu.DeleteItem | server.js:153-159 | DELETE; DeleteRemovesItem, DeletePreservesIds and DeleteThenNotFound state its effect |
| MenuFacts.RejectedBodyChangesNothing | server.js:108-117 | a body breaking a field rule gets 400 with a non-empty error list on POST and PUT, whatever the path id, and neither items nor counter change |
| MenuFacts.CreateAppendsItem | server.js:133-141 | an accepted POST appends one item at the end, keeps earlier items, raises the counter by one and answers 201 with the item; the item holds every body field plus `id` and `available`, where `available` is the body's or `true` |
| MenuFacts.CreateAssignsFreshId | server.js:134-139 | without a body `id`, the new item's id is the old counter and exceeds every id in the store |
| MenuFacts.CreatePreservesIds | server.js:134-139 | POST of a body without `id` keeps the id invariant |
| MenuFacts.ClientIdBreaksUniqueness | server.js:134-136 | an accepted POST body whose `id` equals a stored item's id leaves the new item with the same id as that item, breaking id uniqueness |
| MenuFacts.ReplaceOverwritesItem | server.js:144-150 | an accepted PUT on a present id keeps position, length, counter and the other items; the new item's keys are the body's plus `id`, each body field is copied exactly, the old id is kept when the body has none, a missing `available` stays missing, and the answer is 200 with the item |
| MenuFacts.ReplaceMissingIsNotFound | server.js:145-146 | an accepted PUT on an id no item has answers 404 and changes nothing |
| MenuFacts.ReplacePreservesIds | server.js:148 | PUT of a body without `id` keeps the id invariant |
| MenuFacts.DeleteRemovesItem | server.js:153-159 | DELETE on a present id removes exactly that position, keeps the order of the rest and answers 200 with the fixed message; a missing id answers 404 with no change; the counter never moves |
| MenuFacts.DeletePreservesIds | server.js:157 | DELETE keeps the id invariant |
| MenuFacts.DeleteThenNotFound | server.js:126-130 | on a store with distinct ids, after deleting an id no item has it and GET of it answers 404 |
| MenuFacts.GetFindsFirst | server.js:126-130 | GET by id answers 200 with the first item having the id, or 404 "Menu item not found", and changes nothing |
| MenuFacts.CounterMovesOnlyOnCreate | server.js:135 | any request raises the counter by one if it is an accepted POST and leaves it unchanged otherwise |
| MenuFacts.StepPreservesIds | server.js:121-159 | every route keeps the id invariant when its body carries no `id` |
| MenuFacts.RunPreservesIds | server.js:121-159 | the id invariant holds after any sequence of requests whose bodies carry no `id` |
| MenuFacts.RunCounterMonotone | server.js:135 | over any request sequence the counter never decreases |
| MenuFacts.IdsNeverReused | server.js:134-139 | after any requests, a later POST without a body `id` assigns an id larger than that of any item held before, so deleted ids are never reused |
| Server.SeedDishes | server.js:26-81 | the hard-coded menu has six dishes, each meeting the field rules, with their names, prices and categories in order, and only Fish and Chips unavailable |
| Server.MenuServer.constructor | server.js:26-82 | the server starts with six items whose ids are 1 to 6, each passing validation, with the seed names, prices and categories, `available` false only on the sixth, the counter at 7, and the id invariant holding |
| Server.MenuServer.FindIndex | server.js:145 | the linear scan returns exactly `IndexOf` of the current items |
| Server.MenuServer.FindItem | server.js:127 | the linear scan returns exactly `Find` of the current items |
| Server.MenuServer.List | server.js:121-123 | answers 200 with the current items |
| Server.MenuServer.Get | server.js:126-130 | answers as `GetItem`: 200 or 404 "Menu item not found" |
| Server.MenuServer.Post | server.js:133-141 | new fields and response are those of `CreateItem` on the old state; the id invariant is kept for bodies without `id` |
| Server.MenuServer.Put | server.js:144-150 | new fields and response are those of `ReplaceItem` on the old state; the id invariant is kept for bodies without `id` |
| Server.MenuServer.Delete | server.js:153-159 | new fields and response are those of `DeleteItem` on the old state; the id invariant is kept |
| Scenarios.CreatedThenDeletedIsGone | server.js:126-159 | on a store keeping the invariant, POST of an accepted body without `id` or `available` answers 201 with the counter as id and `available` true; DELETE of that id answers 200; GET of it answers 404 |
| Scenarios.ExampleBodiesAcceptable | server.js:176-193 | the POST example (Grilled Salmon) and the PUT example (Updated Burger) both pass the validator and carry no `id` |
| Scenarios.TacoBodyIsAcceptable | server.js:85-106 | a taco body satisfies every field rule and has no `id` or `available` |
| Scenarios.TacoCreatedDeletedGone | server.js:133-159 | on a store keeping the invariant with the counter at 7, as at start-up: POST of the taco body gives 201 with id 7 and `available` true, DELETE 7 gives 200, GET 7 gives 404 |
| Scenarios.ClientIdBodyIsAcceptable | server.js:85-106 | the validator accepts the taco body with `"id": 1` added, so a body can carry an id that a stored item already has |
| Scenarios.ShortBodyBreaksFiveRules | server.js:86-106 | a body with a two-letter name, a short description, a negative price, an unknown category and no ingredients breaks those five rules and satisfies the available rule |
| Scenarios.FiveRulesBrokenRejected | server.js:85-117 | any body breaking exactly those five rules gets a violation for each of them, none for `available`, and a 400 POST with no state change |
| Scenarios.OutOfRangeChain | server.js:86-106 | on a body whose five required fields are well-typed but out of range, each chain reports exactly its length, bound, category or minimum-items message, and the available chain nothing |
| Scenarios.OutOfRangeChains | server.js:108-113 | on such a body, a list of declared chains reports those messages in list order |
| Scenarios.MenuItemOutOfRangeReports | server.js:86-106 | for the six declared chains those messages are name, description, price, category and ingredients, in that order |
| Scenarios.OutOfRangeViolations | server.js:85-117 | such a body gets exactly the five violations "Name must be at least 3 characters", "Description must be at least 10 characters", "Price must be greater than 0", the category message and the ingredients message, in declaration order |
| Scenarios.ShortBodyRejected | server.js:85-117 | POST of the five-rule body gets exactly those five violations, a 400 answer and no state change |

## Left out

- Express set-up, JSON body parsing and `app.listen` (server.js:4-11, 173): transport plumbing. Bodies arrive as already-parsed JSON objects; bodies that are not objects are not modelled.
- The request logger (server.js:13-23): console output and timestamps.
- The catch-all 404 "Endpoint not found" and the 500 handler (server.js:162-170): routing and fault handling with no store logic.
- Validation.RunRules: the library's type coercions are not modelled. `isFloat` accepting numeric strings, `isBoolean` accepting `"true"`, `"1"` and similar, and `isIn`/`isLength` measuring the string form of a non-string value are all absent. In the model a length or membership check on a non-string value fails.
- Server.SeedDishes: its contract states each dish's name, price, category and availability, and that descriptions and ingredients meet the rules; the description and ingredient texts appear only in its body.
- Server.MenuServer.constructor: states each seed item's id, name, price, category and `available`, not its description and ingredient texts.
- Validation.Violation: carries only the field and the message, not the library's full error object (`type`, `value`, `path`, `location`). The message is a `Message` value, and `Validation.Text` gives its exact wording.
- `parseInt` parsing of the path parameter: the model takes the parsed result, an `Option<int>`.
- Key order in JSON objects: records are maps, so the order of keys in a response body is not modelled.
- Floating-point arithmetic: prices and ids are mathematical reals.
- Server.MenuServer: the list is a `seq` field that each method reassigns, not a JavaScript array shared by reference. Object aliasing between the stored item and the response body is not modelled.
- Concurrency: requests are handled one at a time, as on Node's single thread.
