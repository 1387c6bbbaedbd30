/** The menu store as a state machine over values: the ordered item list
    and the id counter, and what each route does to them. The class in
    server.dfy performs these steps in place and is proved against them. */
module Menu {
  import opened Wrappers
  import opened Json
  import opened Validation

  datatype State = State(items: seq<Record>, currentId: int)

  datatype Body =
    | ItemList(items: seq<Record>)
    | ItemBody(item: Record)
    | ErrorList(status: int, errors: seq<Violation>)
    | StatusMessage(status: int, message: string)
    | MessageOnly(message: string)

  datatype Response = Response(status: int, body: Body)

  datatype Outcome = Outcome(state: State, response: Response)

  const NotFoundMessage: string := "Menu item not found"
  const DeletedMessage: string := "Menu item deleted successfully"

  function NotFound(): Response {
    Response(404, StatusMessage(404, NotFoundMessage))
  }

  function Invalid(errors: seq<Violation>): Response {
    Response(400, ErrorList(400, errors))
  }

  // Start-up.

  function StringArray(names: seq<string>): (v: Value)
    ensures v.Arr? && |v.elems| == |names|
  {
    Arr(seq(|names|, i requires 0 <= i < |names| => Str(names[i])))
  }

  /** The fields of a seed item other than its id. */
  datatype Dish = Dish(name: string, description: string, price: real, category: string,
                       ingredients: seq<string>, available: bool)

  function DishItem(id: int, dish: Dish): Record {
    map["id" := Num(id as real), "name" := Str(dish.name), "description" := Str(dish.description),
        "price" := Num(dish.price), "category" := Str(dish.category),
        "ingredients" := StringArray(dish.ingredients), "available" := Bool(dish.available)]
  }

  /** What the validator's rules ask of a dish's fields. */
  predicate DishOk(dish: Dish) {
    |dish.name| >= 3 && |dish.description| >= 10 && dish.price > 0.0
    && dish.category in Categories && |dish.ingredients| >= 1
  }

  /** Start-up: the seed dishes numbered 1, 2, ... in list order, and
      `currentId = menuItems.length + 1`. */
  function StartState(dishes: seq<Dish>): State {
    State(seq(|dishes|, i requires 0 <= i < |dishes| => DishItem(i + 1, dishes[i])), |dishes| + 1)
  }

  // Identifiers.

  /** `m.id === parseInt(req.params.id)`: a path id that is not a number
      (None) equals nothing; otherwise the item's `id` must be that number. */
  predicate HasId(item: Record, pathId: Option<int>) {
    pathId.Some? && "id" in item && item["id"] == Num(pathId.value as real)
  }

  /** The item's id when it is an integer-valued number. */
  function ItemId(item: Record): Option<int> {
    if "id" in item && item["id"].Num? && item["id"].n.Floor as real == item["id"].n
    then Some(item["id"].n.Floor)
    else None
  }

  /** The store invariant: every item has an integer id below the counter,
      and no two items share an id. */
  predicate IdsOk(s: State) {
    && (forall i :: 0 <= i < |s.items| ==> ItemId(s.items[i]).Some? && ItemId(s.items[i]).value < s.currentId)
    && (forall i, j :: 0 <= i < j < |s.items| ==> ItemId(s.items[i]) != ItemId(s.items[j]))
  }

  /** `findIndex`: the first position whose item has the id, or -1. */
  function IndexOf(items: seq<Record>, pathId: Option<int>): (r: int)
    ensures -1 <= r < |items|
    ensures r >= 0 ==> HasId(items[r], pathId)
    ensures forall j :: 0 <= j < |items| && (r < 0 || j < r) ==> !HasId(items[j], pathId)
  {
    if items == [] then -1
    else if HasId(items[0], pathId) then 0
    else
      var r := IndexOf(items[1..], pathId);
      assert forall j :: 1 <= j < |items| ==> items[j] == items[1..][j - 1];
      if r < 0 then -1 else r + 1
  }

  /** `find`: the first item that has the id, or undefined. */
  function Find(items: seq<Record>, pathId: Option<int>): Option<Record> {
    if items == [] then None
    else if HasId(items[0], pathId) then Some(items[0])
    else Find(items[1..], pathId)
  }

  // The records the handlers build.

  /** `{ id: currentId, ...body, available: body.available ?? true }`: the
      body's keys override the assigned id; `??` replaces undefined and null. */
  function NewItem(body: Record, id: int): Record {
    var available := if "available" in body && !body["available"].Null? then body["available"] else Bool(true);
    (map["id" := Num(id as real)] + body)["available" := available]
  }

  /** `{ id: menuItems[index].id, ...body }`: a wholesale overwrite; no
      default for `available`, and a body `id` overrides the kept one. */
  function Overwrite(current: Record, body: Record): Record
    requires "id" in current
  {
    map["id" := current["id"]] + body
  }

  /** `splice(index, 1)`. */
  function RemoveAt(items: seq<Record>, index: nat): seq<Record>
    requires index < |items|
  {
    items[..index] + items[index + 1..]
  }

  // The routes.

  /** GET /api/menu */
  function ListItems(s: State): Outcome {
    Outcome(s, Response(200, ItemList(s.items)))
  }

  /** GET /api/menu/:id */
  function GetItem(s: State, pathId: Option<int>): Outcome {
    match Find(s.items, pathId)
    case None => Outcome(s, NotFound())
    case Some(item) => Outcome(s, Response(200, ItemBody(item)))
  }

  /** POST /api/menu: validation, then `currentId++` and `push`. */
  function CreateItem(s: State, body: Record): Outcome {
    var errors := Validate(body);
    if errors != [] then Outcome(s, Invalid(errors))
    else
      var item := NewItem(body, s.currentId);
      Outcome(State(s.items + [item], s.currentId + 1), Response(201, ItemBody(item)))
  }

  /** PUT /api/menu/:id: validation runs before the lookup. */
  function ReplaceItem(s: State, pathId: Option<int>, body: Record): Outcome {
    var errors := Validate(body);
    if errors != [] then Outcome(s, Invalid(errors))
    else
      var index := IndexOf(s.items, pathId);
      if index < 0 then Outcome(s, NotFound())
      else
        var item := Overwrite(s.items[index], body);
        Outcome(State(s.items[index := item], s.currentId), Response(200, ItemBody(item)))
  }

  /** DELETE /api/menu/:id */
  function DeleteItem(s: State, pathId: Option<int>): Outcome {
    var index := IndexOf(s.items, pathId);
    if index < 0 then Outcome(s, NotFound())
    else Outcome(State(RemoveAt(s.items, index), s.currentId), Response(200, MessageOnly(DeletedMessage)))
  }

  // Request sequences.

  datatype Request =
    | ListAll
    | GetById(pathId: Option<int>)
    | Create(body: Record)
    | ReplaceById(pathId: Option<int>, body: Record)
    | DeleteById(pathId: Option<int>)

  function Step(s: State, request: Request): Outcome {
    match request
    case ListAll => ListItems(s)
    case GetById(pathId) => GetItem(s, pathId)
    case Create(body) => CreateItem(s, body)
    case ReplaceById(pathId, body) => ReplaceItem(s, pathId, body)
    case DeleteById(pathId) => DeleteItem(s, pathId)
  }

  /** The state after handling the requests one after another. */
  function Run(s: State, requests: seq<Request>): State
    decreases |requests|
  {
    if requests == [] then s else Run(Step(s, requests[0]).state, requests[1..])
  }

  /** The request carries no client-chosen `id` in its body. */
  predicate CarriesNoId(request: Request) {
    match request
    case Create(body) => "id" !in body
    case ReplaceById(_, body) => "id" !in body
    case _ => true
  }
}
