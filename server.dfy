/** The request handlers of server.js acting on module-level state: the
    `menuItems` array and the `currentId` counter become the fields of one
    server object, and each route a method that updates them in place. */
module Server {
  import opened Wrappers
  import opened Json
  import opened Validation
  import opened Menu
  import opened MenuFacts

  /** The hard-coded menu of server.js, in order. Every seed dish meets
      the validator's field rules, and only the last is unavailable. */
  method SeedDishes() returns (dishes: seq<Dish>)
    ensures |dishes| == 6
    ensures forall i :: 0 <= i < |dishes| ==> DishOk(dishes[i]) && dishes[i].available == (i != 5)
    ensures dishes[0].name == "Classic Burger" && dishes[0].price == 12.99 && dishes[0].category == "entree"
    ensures dishes[1].name == "Chicken Caesar Salad" && dishes[1].price == 11.50 && dishes[1].category == "entree"
    ensures dishes[2].name == "Mozzarella Sticks" && dishes[2].price == 8.99 && dishes[2].category == "appetizer"
    ensures dishes[3].name == "Chocolate Lava Cake" && dishes[3].price == 7.99 && dishes[3].category == "dessert"
    ensures dishes[4].name == "Fresh Lemonade" && dishes[4].price == 3.99 && dishes[4].category == "beverage"
    ensures dishes[5].name == "Fish and Chips" && dishes[5].price == 14.99 && dishes[5].category == "entree"
  {
    dishes := [
      Dish("Classic Burger", "Beef patty with lettuce, tomato, and cheese on a sesame seed bun",
           12.99, "entree", ["beef", "lettuce", "tomato", "cheese", "bun"], true),
      Dish("Chicken Caesar Salad", "Grilled chicken breast over romaine lettuce with parmesan and croutons",
           11.50, "entree", ["chicken", "romaine lettuce", "parmesan cheese", "croutons", "caesar dressing"], true),
      Dish("Mozzarella Sticks", "Crispy breaded mozzarella served with marinara sauce",
           8.99, "appetizer", ["mozzarella cheese", "breadcrumbs", "marinara sauce"], true),
      Dish("Chocolate Lava Cake", "Warm chocolate cake with molten center, served with vanilla ice cream",
           7.99, "dessert", ["chocolate", "flour", "eggs", "butter", "vanilla ice cream"], true),
      Dish("Fresh Lemonade", "House-made lemonade with fresh lemons and mint",
           3.99, "beverage", ["lemons", "sugar", "water", "mint"], true),
      Dish("Fish and Chips", "Beer-battered cod with seasoned fries and coleslaw",
           14.99, "entree", ["cod", "beer batter", "potatoes", "coleslaw", "tartar sauce"], false) ];
  }

  class MenuServer {
    var items: seq<Record>
    var currentId: int

    /** The store's state as a value, for the specification functions. */
    function Snapshot(): State
      reads this
    {
      State(items, currentId)
    }

    /** Start-up: the six seed items with ids 1 to 6, and
        `currentId = menuItems.length + 1`, which is 7; the id invariant
        holds from here on. */
    constructor ()
      ensures |items| == 6 && currentId == 7
      ensures forall i :: 0 <= i < 6 ==> ItemId(items[i]) == Some(i + 1) && Acceptable(items[i])
      ensures forall i :: 0 <= i < 6 ==> Lookup(items[i], "available") == Some(Bool(i != 5))
      ensures Lookup(items[0], "name") == Some(Str("Classic Burger"))
      ensures Lookup(items[1], "name") == Some(Str("Chicken Caesar Salad"))
      ensures Lookup(items[2], "name") == Some(Str("Mozzarella Sticks"))
      ensures Lookup(items[3], "name") == Some(Str("Chocolate Lava Cake"))
      ensures Lookup(items[4], "name") == Some(Str("Fresh Lemonade"))
      ensures Lookup(items[5], "name") == Some(Str("Fish and Chips"))
      ensures Lookup(items[0], "price") == Some(Num(12.99)) && Lookup(items[1], "price") == Some(Num(11.50))
      ensures Lookup(items[2], "price") == Some(Num(8.99)) && Lookup(items[3], "price") == Some(Num(7.99))
      ensures Lookup(items[4], "price") == Some(Num(3.99)) && Lookup(items[5], "price") == Some(Num(14.99))
      ensures Lookup(items[2], "category") == Some(Str("appetizer")) && Lookup(items[3], "category") == Some(Str("dessert"))
      ensures Lookup(items[4], "category") == Some(Str("beverage"))
      ensures forall i :: i in {0, 1, 5} ==> Lookup(items[i], "category") == Some(Str("entree"))
      ensures IdsOk(Snapshot())
    {
      var dishes := SeedDishes();
      var start := StartState(dishes);
      StartStateIdsOk(dishes);
      forall i | 0 <= i < 6
        ensures Acceptable(start.items[i])
        ensures start.items[i] == DishItem(i + 1, dishes[i])
      {
        DishItemAcceptable(i + 1, dishes[i]);
      }
      forall i | 0 <= i < 6
        ensures var item := start.items[i];
          && Lookup(item, "name") == Some(Str(dishes[i].name))
          && Lookup(item, "price") == Some(Num(dishes[i].price))
          && Lookup(item, "category") == Some(Str(dishes[i].category))
          && Lookup(item, "available") == Some(Bool(dishes[i].available))
      {
        DishItemFields(i + 1, dishes[i]);
      }
      items := start.items;
      currentId := |start.items| + 1;
    }

    /** `menuItems.findIndex(m => m.id === id)` as a linear scan. */
    method FindIndex(pathId: Option<int>) returns (index: int)
      ensures index == IndexOf(items, pathId)
    {
      index := 0;
      while index < |items|
        invariant 0 <= index <= |items|
        invariant forall j :: 0 <= j < index ==> !HasId(items[j], pathId)
      {
        if HasId(items[index], pathId) {
          return;
        }
        index := index + 1;
      }
      index := -1;
    }

    /** `menuItems.find(m => m.id === id)` as a linear scan. */
    method FindItem(pathId: Option<int>) returns (found: Option<Record>)
      ensures found == Find(items, pathId)
    {
      var i := 0;
      while i < |items|
        invariant 0 <= i <= |items|
        invariant Find(items, pathId) == Find(items[i..], pathId)
      {
        assert items[i..][1..] == items[i + 1..];
        if HasId(items[i], pathId) {
          return Some(items[i]);
        }
        i := i + 1;
      }
      found := None;
    }

    /** GET /api/menu */
    method List() returns (response: Response)
      ensures response == ListItems(Snapshot()).response
      ensures response.status == 200 && response.body.items == items
    {
      response := Response(200, ItemList(items));
    }

    /** GET /api/menu/:id */
    method Get(pathId: Option<int>) returns (response: Response)
      ensures response == GetItem(Snapshot(), pathId).response
      ensures response.status == 200 || response == NotFound()
    {
      var item := FindItem(pathId);
      if item.None? {
        return NotFound();
      }
      response := Response(200, ItemBody(item.value));
    }

    /** POST /api/menu: validate, then take `currentId++` and push. */
    method Post(body: Record) returns (response: Response)
      modifies this
      ensures Outcome(Snapshot(), response) == CreateItem(old(Snapshot()), body)
      ensures old(IdsOk(Snapshot())) && "id" !in body ==> IdsOk(Snapshot())
    {
      if IdsOk(Snapshot()) && "id" !in body {
        CreatePreservesIds(Snapshot(), body);
      }
      var errors := Validate(body);
      if errors != [] {
        return Invalid(errors);
      }
      var item := NewItem(body, currentId);
      currentId := currentId + 1;
      items := items + [item];
      response := Response(201, ItemBody(item));
    }

    /** PUT /api/menu/:id: validate first, then look the id up and
        overwrite the item where it stands. */
    method Put(pathId: Option<int>, body: Record) returns (response: Response)
      modifies this
      ensures Outcome(Snapshot(), response) == ReplaceItem(old(Snapshot()), pathId, body)
      ensures old(IdsOk(Snapshot())) && "id" !in body ==> IdsOk(Snapshot())
    {
      if IdsOk(Snapshot()) && "id" !in body {
        ReplacePreservesIds(Snapshot(), pathId, body);
      }
      var errors := Validate(body);
      if errors != [] {
        return Invalid(errors);
      }
      var index := FindIndex(pathId);
      if index == -1 {
        return NotFound();
      }
      items := items[index := Overwrite(items[index], body)];
      response := Response(200, ItemBody(items[index]));
    }

    /** DELETE /api/menu/:id: look the id up and splice the item out. */
    method Delete(pathId: Option<int>) returns (response: Response)
      modifies this
      ensures Outcome(Snapshot(), response) == DeleteItem(old(Snapshot()), pathId)
      ensures old(IdsOk(Snapshot())) ==> IdsOk(Snapshot())
    {
      if IdsOk(Snapshot()) {
        DeletePreservesIds(Snapshot(), pathId);
      }
      var index := FindIndex(pathId);
      if index == -1 {
        return NotFound();
      }
      items := RemoveAt(items, index);
      response := Response(200, MessageOnly(DeletedMessage));
    }
  }
}
