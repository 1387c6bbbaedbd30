/** Properties of the menu store's routes: status codes, what each route
    does to the item list and the counter, and the id invariant. */
module MenuFacts {
  import opened Wrappers
  import opened Json
  import opened Validation
  import opened ValidationFacts
  import opened Menu

  // Identifiers and lookup.

  /** Matching a numeric path id is the same as having that integer id. */
  lemma HasIdIffItemId(item: Record, k: int)
    ensures HasId(item, Some(k)) <==> ItemId(item) == Some(k)
  {
    if ItemId(item) == Some(k) {
      assert item["id"].n == k as real;
    }
  }

  /** `find` returns the item at the position `findIndex` reports. */
  lemma {:induction false} FindAgreesWithIndexOf(items: seq<Record>, pathId: Option<int>)
    ensures Find(items, pathId) == if IndexOf(items, pathId) < 0 then None else Some(items[IndexOf(items, pathId)])
  {
    if items != [] && !HasId(items[0], pathId) {
      FindAgreesWithIndexOf(items[1..], pathId);
    }
  }

  /** A path id that is not a number never matches. */
  lemma NoNumberNoMatch(items: seq<Record>)
    ensures IndexOf(items, None) == -1 && Find(items, None) == None
  {
    FindAgreesWithIndexOf(items, None);
  }

  /** With distinct ids, an item holding an id is the one `findIndex` finds. */
  lemma UniqueIdFound(s: State, i: nat, k: int)
    requires IdsOk(s) && i < |s.items| && ItemId(s.items[i]) == Some(k)
    ensures IndexOf(s.items, Some(k)) == i
  {
    HasIdIffItemId(s.items[i], k);
    var r := IndexOf(s.items, Some(k));
    if r != i {
      HasIdIffItemId(s.items[r], k);
    }
  }

  // The initial state.

  lemma DishItemId(id: int, dish: Dish)
    ensures ItemId(DishItem(id, dish)) == Some(id)
  {
    assert DishItem(id, dish)["id"] == Num(id as real);
  }

  /** A seed record holds the dish's fields under their JSON keys. */
  lemma DishItemFields(id: int, dish: Dish)
    ensures var item := DishItem(id, dish);
      && Lookup(item, "name") == Some(Str(dish.name))
      && Lookup(item, "description") == Some(Str(dish.description))
      && Lookup(item, "price") == Some(Num(dish.price))
      && Lookup(item, "category") == Some(Str(dish.category))
      && Lookup(item, "ingredients") == Some(StringArray(dish.ingredients))
      && Lookup(item, "available") == Some(Bool(dish.available))
  {
  }

  /** An item built from a dish passes validation exactly when the dish's
      fields meet the rules. */
  lemma DishItemAcceptable(id: int, dish: Dish)
    ensures Acceptable(DishItem(id, dish)) <==> DishOk(dish)
  {
    var item := DishItem(id, dish);
    assert item["name"] == Str(dish.name) && item["description"] == Str(dish.description);
    assert item["price"] == Num(dish.price) && item["category"] == Str(dish.category);
    assert item["ingredients"] == StringArray(dish.ingredients) && item["available"] == Bool(dish.available);
  }

  /** The start-up store numbers its items 1 to n, sets the counter to
      n + 1, and keeps the id invariant. */
  lemma StartStateIdsOk(dishes: seq<Dish>)
    ensures var s := StartState(dishes);
      && |s.items| == |dishes| && s.currentId == |dishes| + 1
      && (forall i :: 0 <= i < |dishes| ==> ItemId(s.items[i]) == Some(i + 1))
      && IdsOk(s)
  {
    var s := StartState(dishes);
    forall i | 0 <= i < |dishes|
      ensures ItemId(s.items[i]) == Some(i + 1)
    {
      DishItemId(i + 1, dishes[i]);
    }
  }

  // Rejected bodies.

  /** A body that breaks a field rule gets 400 with a non-empty violation
      list, and neither the items nor the counter change. PUT validates
      before it looks the id up, so a missing id still gets 400, not 404. */
  lemma RejectedBodyChangesNothing(s: State, pathId: Option<int>, body: Record)
    requires !Acceptable(body)
    ensures |Validate(body)| >= 1
    ensures CreateItem(s, body) == Outcome(s, Invalid(Validate(body)))
    ensures ReplaceItem(s, pathId, body) == Outcome(s, Invalid(Validate(body)))
  {
    ValidateAcceptsIff(body);
  }

  // Create.

  /** POST on an acceptable body appends exactly one item and answers 201
      with it; earlier items stay as they were and the counter goes up by
      one. The item holds every body field, and `available` is the body's
      value, or true when the body has none. */
  lemma CreateAppendsItem(s: State, body: Record)
    requires Acceptable(body)
    ensures var o := CreateItem(s, body);
      && |o.state.items| == |s.items| + 1
      && o.state.items[..|s.items|] == s.items
      && o.state.currentId == s.currentId + 1
      && o.response == Response(201, ItemBody(o.state.items[|s.items|]))
      && o.state.items[|s.items|].Keys == body.Keys + {"id", "available"}
      && (forall key :: key in body && key != "available" ==> o.state.items[|s.items|][key] == body[key])
      && o.state.items[|s.items|]["available"] == (if "available" in body then body["available"] else Bool(true))
  {
    ValidateAcceptsIff(body);
  }

  /** Without a client `id`, the new item's id is the old counter, larger
      than every id in the store. */
  lemma CreateAssignsFreshId(s: State, body: Record)
    requires IdsOk(s) && Acceptable(body) && "id" !in body
    ensures var t := CreateItem(s, body).state;
      && |t.items| == |s.items| + 1
      && ItemId(t.items[|s.items|]) == Some(s.currentId)
      && forall i :: 0 <= i < |s.items| ==> ItemId(s.items[i]).value < ItemId(t.items[|s.items|]).value
  {
    ValidateAcceptsIff(body);
    var item := NewItem(body, s.currentId);
    assert item["id"] == Num(s.currentId as real);
  }

  lemma CreatePreservesIds(s: State, body: Record)
    requires IdsOk(s) && "id" !in body
    ensures IdsOk(CreateItem(s, body).state)
  {
    if Validate(body) == [] {
      var item := NewItem(body, s.currentId);
      assert item["id"] == Num(s.currentId as real);
      var t := CreateItem(s, body).state;
      assert t.items == s.items + [item];
      forall i | 0 <= i < |t.items|
        ensures ItemId(t.items[i]).Some? && ItemId(t.items[i]).value < t.currentId
      {
        if i < |s.items| { assert t.items[i] == s.items[i]; }
      }
      forall i, j | 0 <= i < j < |t.items|
        ensures ItemId(t.items[i]) != ItemId(t.items[j])
      {
        assert t.items[i] == s.items[i];
        if j < |s.items| { assert t.items[j] == s.items[j]; }
      }
    }
  }

  /** A body that carries `id` overrides the assigned one: POSTing an
      acceptable body whose `id` is that of a stored item leaves two items
      with the same id. */
  lemma ClientIdBreaksUniqueness(s: State, i: nat, body: Record)
    requires IdsOk(s) && i < |s.items| && Acceptable(body) && "id" in body && body["id"] == s.items[i]["id"]
    ensures var t := CreateItem(s, body).state;
      && |t.items| == |s.items| + 1
      && ItemId(t.items[|s.items|]) == ItemId(t.items[i]) != None
      && !IdsOk(t)
  {
    ValidateAcceptsIff(body);
    var t := CreateItem(s, body).state;
    var item := NewItem(body, s.currentId);
    assert t.items[|s.items|] == item && t.items[i] == s.items[i];
    assert item["id"] == s.items[i]["id"];
  }

  // Replace.

  /** PUT on an acceptable body and a present id keeps the item's position
      and id and sets every other field to exactly the body's (a field the
      body omits, `available` included, is dropped); other items stay as
      they were, and the counter does not move. */
  lemma ReplaceOverwritesItem(s: State, pathId: Option<int>, body: Record)
    requires Acceptable(body) && IndexOf(s.items, pathId) >= 0
    ensures var i := IndexOf(s.items, pathId); var o := ReplaceItem(s, pathId, body);
      && |o.state.items| == |s.items|
      && o.state.currentId == s.currentId
      && (forall j :: 0 <= j < |s.items| && j != i ==> o.state.items[j] == s.items[j])
      && o.state.items[i].Keys == body.Keys + {"id"}
      && (forall key :: key in body ==> o.state.items[i][key] == body[key])
      && ("id" !in body ==> o.state.items[i]["id"] == s.items[i]["id"])
      && ("available" !in body ==> "available" !in o.state.items[i])
      && o.response == Response(200, ItemBody(o.state.items[i]))
  {
    ValidateAcceptsIff(body);
  }

  /** PUT with an acceptable body and an id that is not present: 404, no change. */
  lemma ReplaceMissingIsNotFound(s: State, pathId: Option<int>, body: Record)
    requires Acceptable(body) && forall i :: 0 <= i < |s.items| ==> !HasId(s.items[i], pathId)
    ensures ReplaceItem(s, pathId, body) == Outcome(s, NotFound())
  {
    ValidateAcceptsIff(body);
  }

  lemma ReplacePreservesIds(s: State, pathId: Option<int>, body: Record)
    requires IdsOk(s) && "id" !in body
    ensures IdsOk(ReplaceItem(s, pathId, body).state)
  {
    var i := IndexOf(s.items, pathId);
    if Validate(body) == [] && i >= 0 {
      var t := ReplaceItem(s, pathId, body).state;
      assert t.items[i]["id"] == s.items[i]["id"];
      assert ItemId(t.items[i]) == ItemId(s.items[i]);
      assert forall j :: 0 <= j < |t.items| ==> ItemId(t.items[j]) == ItemId(s.items[j]);
    }
  }

  // Delete.

  /** DELETE on a present id removes exactly that item, keeps the order of
      the rest and answers 200 with the fixed message; a missing id gets 404
      and no change. The counter never moves. */
  lemma DeleteRemovesItem(s: State, pathId: Option<int>)
    ensures var i := IndexOf(s.items, pathId); var o := DeleteItem(s, pathId);
      && o.state.currentId == s.currentId
      && (i < 0 ==> o == Outcome(s, NotFound()))
      && (i >= 0 ==>
            && |o.state.items| == |s.items| - 1
            && o.state.items == s.items[..i] + s.items[i + 1..]
            && o.response == Response(200, MessageOnly("Menu item deleted successfully")))
  {
  }

  lemma DeletePreservesIds(s: State, pathId: Option<int>)
    requires IdsOk(s)
    ensures IdsOk(DeleteItem(s, pathId).state)
  {
    var i := IndexOf(s.items, pathId);
    if i >= 0 {
      var t := DeleteItem(s, pathId).state;
      assert forall j :: 0 <= j < |t.items| ==> t.items[j] == s.items[if j < i then j else j + 1];
    }
  }

  /** Once an id is deleted, GET, PUT and DELETE on it find nothing. */
  lemma DeleteThenNotFound(s: State, k: int)
    requires IdsOk(s)
    ensures var t := DeleteItem(s, Some(k)).state;
      && IndexOf(t.items, Some(k)) == -1
      && GetItem(t, Some(k)).response == NotFound()
  {
    var i := IndexOf(s.items, Some(k));
    var t := DeleteItem(s, Some(k)).state;
    if i >= 0 {
      HasIdIffItemId(s.items[i], k);
      forall j | 0 <= j < |t.items|
        ensures !HasId(t.items[j], Some(k))
      {
        var o := if j < i then j else j + 1;
        assert t.items[j] == s.items[o];
        HasIdIffItemId(s.items[o], k);
      }
    }
    FindAgreesWithIndexOf(t.items, Some(k));
  }

  // Get and list.

  /** GET by id answers with the first item holding the id, or 404, and
      changes nothing. */
  lemma GetFindsFirst(s: State, pathId: Option<int>)
    ensures GetItem(s, pathId).state == s
    ensures var i := IndexOf(s.items, pathId);
      GetItem(s, pathId).response == if i < 0 then NotFound() else Response(200, ItemBody(s.items[i]))
  {
    FindAgreesWithIndexOf(s.items, pathId);
  }

  // Whole request sequences.

  /** Only an accepted POST moves the counter, and by exactly one. */
  lemma CounterMovesOnlyOnCreate(s: State, request: Request)
    ensures Step(s, request).state.currentId ==
            if request.Create? && Acceptable(request.body) then s.currentId + 1 else s.currentId
  {
    if request.Create? {
      ValidateAcceptsIff(request.body);
    }
  }

  lemma StepPreservesIds(s: State, request: Request)
    requires IdsOk(s) && CarriesNoId(request)
    ensures IdsOk(Step(s, request).state)
  {
    match request
    case ListAll =>
    case GetById(_) =>
    case Create(body) => CreatePreservesIds(s, body);
    case ReplaceById(pathId, body) => ReplacePreservesIds(s, pathId, body);
    case DeleteById(pathId) => DeletePreservesIds(s, pathId);
  }

  /** The id invariant holds after any requests whose bodies carry no `id`. */
  lemma {:induction false} RunPreservesIds(s: State, requests: seq<Request>)
    requires IdsOk(s) && forall i :: 0 <= i < |requests| ==> CarriesNoId(requests[i])
    ensures IdsOk(Run(s, requests))
    decreases |requests|
  {
    if requests != [] {
      StepPreservesIds(s, requests[0]);
      assert forall i :: 1 <= i < |requests| ==> requests[1..][i - 1] == requests[i];
      RunPreservesIds(Step(s, requests[0]).state, requests[1..]);
    }
  }

  lemma {:induction false} RunCounterMonotone(s: State, requests: seq<Request>)
    ensures Run(s, requests).currentId >= s.currentId
    decreases |requests|
  {
    if requests != [] {
      CounterMovesOnlyOnCreate(s, requests[0]);
      RunCounterMonotone(Step(s, requests[0]).state, requests[1..]);
    }
  }

  /** Ids are never reused: whatever requests follow, a later POST without a
      client `id` assigns an id larger than that of any item held before. */
  lemma IdsNeverReused(s: State, requests: seq<Request>, k: nat, body: Record)
    requires IdsOk(s) && k < |s.items| && Acceptable(body) && "id" !in body
    ensures var t := Run(s, requests); var u := CreateItem(t, body).state;
      && |u.items| == |t.items| + 1
      && ItemId(u.items[|t.items|]).Some?
      && ItemId(u.items[|t.items|]).value > ItemId(s.items[k]).value
  {
    var t := Run(s, requests);
    RunCounterMonotone(s, requests);
    ValidateAcceptsIff(body);
    var item := NewItem(body, t.currentId);
    assert item["id"] == Num(t.currentId as real);
  }
}
