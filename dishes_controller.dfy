/**
  The GrubDash dishes controller: the validators of the `/dishes` routes,
  the route chains built from them, and the in-memory dish list they read
  and change. There is no route that removes a dish.
 */
module DishesController {
  import opened Wrappers
  import opened JsValues
  import opened ArrayOps
  import opened Middleware

  /** A dish record of the in-memory list. Only `id` is fixed by the
      server; the other fields hold whatever a request supplied. */
  datatype Dish = Dish(id: string, name: JsValue, description: JsValue, price: JsValue, imageUrl: JsValue)

  /** A request as the dish routes see it: the `:dishId` route parameter and
      the `data` member of the JSON body (`Undefined` when absent). */
  datatype Request = Request(routeId: string, data: JsValue)

  /** The dish `dishExists` stores in `res.locals.dish`: its position in the
      list and its value. */
  datatype Resolved = Resolved(index: nat, dish: Dish)

  type Locals = Option<Resolved>

  function MissingFieldMessage(field: string): string {
    "Dish must include a " + field
  }

  const MissingPriceMessage := "Dish must include a price"
  const BadPriceMessage := "Dish must have a price that is an integer greater than 0"

  function NotFoundMessage(routeId: string): string {
    "Dish does not exist: " + routeId
  }

  /** The mismatch error, with `text` the body id as a template literal
      renders it. */
  function IdMismatchMessage(text: string, routeId: string): string {
    "Dish id does not match route id. Dish: " + text + ", Route: " + routeId
  }

  function HasId(id: string): Dish -> bool {
    (d: Dish) => d.id == id
  }

  /** No two dishes share an id. */
  ghost predicate UniqueIds(dishes: seq<Dish>) {
    forall i, j :: 0 <= i < j < |dishes| ==> dishes[i].id != dishes[j].id
  }

  /** `id` is not the id of any dish (what `nextId` guarantees). */
  ghost predicate FreshId(dishes: seq<Dish>, id: string) {
    forall i :: 0 <= i < |dishes| ==> dishes[i].id != id
  }

  // ---------------------------------------------------------------- validators

  /** `bodyHas(field)`: the body's `data[field]` must be truthy. */
  function BodyHas(field: string, req: Request, locals: Locals): (r: Step<Locals>)
    ensures r.Next? <==> !req.data.Null? && Truthy(Member(req.data, field))
    ensures r.Next? ==> r.locals == locals
    ensures r.Stop? ==> r.failure == if req.data.Null? then Thrown else Reject(400, MissingFieldMessage(field))
  {
    match Field(req.data, field)
    case None => Stop(Thrown)
    case Some(v) => if Truthy(v) then Next(locals) else Stop(Reject(400, MissingFieldMessage(field)))
  }

  /** `priceIsValid`: an absent price and a price that is not an integer
      greater than 0 (null included) get different messages. */
  function PriceIsValid(req: Request, locals: Locals): (r: Step<Locals>)
    ensures req.data.Null? ==> r == Stop(Thrown)
    ensures !req.data.Null? && Member(req.data, "price").Undefined? ==> r == Stop(Reject(400, MissingPriceMessage))
    ensures !req.data.Null? && !Member(req.data, "price").Undefined? && !IsPositiveInteger(Member(req.data, "price")) ==>
              r == Stop(Reject(400, BadPriceMessage))
    ensures r.Next? <==> !req.data.Null? && IsPositiveInteger(Member(req.data, "price"))
    ensures r.Next? ==> r.locals == locals
  {
    match Field(req.data, "price")
    case None => Stop(Thrown)
    case Some(price) =>
      if price.Undefined? then Stop(Reject(400, MissingPriceMessage))
      // `price <= 0` is only decided here for integers: a non-integer is
      // refused by `!Number.isInteger(price)` whatever its sign.
      else if !IsNumber(price) || (price.Num? && price.n <= 0) || !IsInteger(price) then Stop(Reject(400, BadPriceMessage))
      else Next(locals)
  }

  /** `dishExists`: resolves the first dish whose id is the route id. */
  function DishExists(dishes: seq<Dish>, req: Request, locals: Locals): (r: Step<Locals>)
    ensures r.Stop? <==> forall i :: 0 <= i < |dishes| ==> dishes[i].id != req.routeId
    ensures r.Stop? ==> r.failure == Reject(404, NotFoundMessage(req.routeId))
    ensures r.Next? ==> r.locals.Some? && r.locals.value.index < |dishes|
    ensures r.Next? ==>
              var i := r.locals.value.index;
              r.locals.value.dish == dishes[i] && dishes[i].id == req.routeId &&
              forall j :: 0 <= j < i ==> dishes[j].id != req.routeId
  {
    match Find(dishes, HasId(req.routeId))
    case Some(i) => Next(Some(Resolved(i, dishes[i])))
    case None => Stop(Reject(404, NotFoundMessage(req.routeId)))
  }

  /** `idMatches`: an id in the body, when truthy, must be the route id.
      Rendering a mismatched id into the message throws for an id that
      `String` cannot convert. */
  function IdMatches(req: Request, locals: Locals): (r: Step<Locals>)
    ensures r.Next? <==> !req.data.Null? && (!Truthy(Member(req.data, "id")) || Member(req.data, "id") == Str(req.routeId))
    ensures r.Next? ==> r.locals == locals
    ensures r.Stop? ==> r.failure == if req.data.Null? || Unprintable(Member(req.data, "id")) then Thrown
                                     else Reject(400, IdMismatchMessage(Display(Member(req.data, "id")).value, req.routeId))
  {
    match Field(req.data, "id")
    case None => Stop(Thrown)
    case Some(id) =>
      if Truthy(id) && id != Str(req.routeId) then
        match Display(id)
        case None => Stop(Thrown)
        case Some(text) => Stop(Reject(400, IdMismatchMessage(text, req.routeId)))
      else Next(locals)
  }

  // ---------------------------------------------------------------- route chains

  /** The validators of `POST /dishes`, in order: the price is checked
      before `image_url`. */
  function CreateChain(): seq<Handler<Request, Locals>> {
    [(req: Request, l: Locals) => BodyHas("name", req, l),
     (req: Request, l: Locals) => BodyHas("description", req, l),
     PriceIsValid,
     (req: Request, l: Locals) => BodyHas("image_url", req, l)]
  }

  /** The validators of `GET /dishes/:dishId`. */
  function ResolveChain(dishes: seq<Dish>): seq<Handler<Request, Locals>> {
    [(req: Request, l: Locals) => DishExists(dishes, req, l)]
  }

  /** The validators of `PUT /dishes/:dishId`, in order. */
  function UpdateChain(dishes: seq<Dish>): seq<Handler<Request, Locals>> {
    [(req: Request, l: Locals) => DishExists(dishes, req, l),
     IdMatches,
     (req: Request, l: Locals) => BodyHas("name", req, l),
     (req: Request, l: Locals) => BodyHas("description", req, l),
     PriceIsValid,
     (req: Request, l: Locals) => BodyHas("image_url", req, l)]
  }

  // ---------------------------------------------------------------- what the chains decide

  /** The fields every dish must carry: truthy name, description and
      image_url, and a price that is an integer greater than 0. */
  predicate FieldsAccepted(data: JsValue) {
    && !data.Null?
    && Truthy(Member(data, "name"))
    && Truthy(Member(data, "description"))
    && IsPositiveInteger(Member(data, "price"))
    && Truthy(Member(data, "image_url"))
  }

  /** The first failure among the field checks of `name`, `description`,
      `price` and `image_url`, in that order. */
  function FieldsFailure(data: JsValue): (f: Option<Failure>)
    ensures f.None? <==> FieldsAccepted(data)
  {
    if data.Null? then Some(Thrown)
    else if !Truthy(Member(data, "name")) then Some(Reject(400, MissingFieldMessage("name")))
    else if !Truthy(Member(data, "description")) then Some(Reject(400, MissingFieldMessage("description")))
    else if Member(data, "price").Undefined? then Some(Reject(400, MissingPriceMessage))
    else if !IsPositiveInteger(Member(data, "price")) then Some(Reject(400, BadPriceMessage))
    else if !Truthy(Member(data, "image_url")) then Some(Reject(400, MissingFieldMessage("image_url")))
    else None
  }

  /** The create chain passes exactly when the fields are accepted, and
      otherwise fails with the first field error. */
  lemma CreateChainOutcome(req: Request)
    ensures var r := Run(CreateChain(), req, None);
      && (r.Next? <==> FieldsAccepted(req.data))
      && (r.Stop? ==> Some(r.failure) == FieldsFailure(req.data))
  {
    var c := CreateChain();
    assert c[0..] == c;
    assert c[4..] == [];
    RunFrom(c, 0, req, None);
    RunFrom(c, 1, req, None);
    RunFrom(c, 2, req, None);
    RunFrom(c, 3, req, None);
  }

  /** The chain of `GET /dishes/:dishId` resolves the first dish with the
      route id, or answers 404. */
  lemma ResolveChainOutcome(dishes: seq<Dish>, req: Request)
    ensures Run(ResolveChain(dishes), req, None) == DishExists(dishes, req, None)
  {
    var c := ResolveChain(dishes);
    assert c[0..] == c;
    assert c[1..] == [];
    RunFrom(c, 0, req, None);
  }

  /** Every check of `PUT /dishes/:dishId` passes. */
  predicate UpdateAccepted(dishes: seq<Dish>, req: Request) {
    && Find(dishes, HasId(req.routeId)).Some?
    && !req.data.Null?
    && (!Truthy(Member(req.data, "id")) || Member(req.data, "id") == Str(req.routeId))
    && FieldsAccepted(req.data)
  }

  /** The update chain: 404 first, then the id check, then the field checks
      in the create order; on success the resolved dish is in the locals. */
  lemma UpdateChainOutcome(dishes: seq<Dish>, req: Request)
    ensures var r := Run(UpdateChain(dishes), req, None);
      var found := DishExists(dishes, req, None);
      && (r.Next? <==> UpdateAccepted(dishes, req))
      && (r.Next? ==> r.locals == found.locals)
      && (found.Stop? ==> r == found)
      && (found.Next? && IdMatches(req, found.locals).Stop? ==> r == IdMatches(req, found.locals))
      && (found.Next? && IdMatches(req, found.locals).Next? && r.Stop? ==> Some(r.failure) == FieldsFailure(req.data))
  {
    var c := UpdateChain(dishes);
    assert c[0..] == c;
    assert c[6..] == [];
    RunFrom(c, 0, req, None);
    var s0 := DishExists(dishes, req, None);
    if s0.Next? {
      var l := s0.locals;
      RunFrom(c, 1, req, l);
      RunFrom(c, 2, req, l);
      RunFrom(c, 3, req, l);
      RunFrom(c, 4, req, l);
      RunFrom(c, 5, req, l);
    }
  }

  // ---------------------------------------------------------------- routes

  /** `GET /dishes`. */
  function ListDishes(dishes: seq<Dish>): Reply<seq<Dish>> {
    Sent(200, dishes)
  }

  /** `GET /dishes/:dishId`: `[dishExists, read]`. */
  function ReadDish(dishes: seq<Dish>, req: Request): (r: Reply<Dish>)
    ensures r.Sent? <==> Find(dishes, HasId(req.routeId)).Some?
    ensures r.Sent? ==> r == Sent(200, dishes[Find(dishes, HasId(req.routeId)).value])
    ensures r.Failed? ==> r.failure == Reject(404, NotFoundMessage(req.routeId))
  {
    ResolveChainOutcome(dishes, req);
    match Run(ResolveChain(dishes), req, None)
    case Stop(f) => Failed(f)
    case Next(locals) =>
      if locals.Some? then Sent(200, locals.value.dish)
      else assert false; Failed(Thrown)
  }

  /** The record `create` appends: a fresh id and the submitted fields. */
  function NewDish(id: string, data: JsValue): (d: Dish)
    ensures d.id == id
  {
    Dish(id, Member(data, "name"), Member(data, "description"), Member(data, "price"), Member(data, "image_url"))
  }

  /** `POST /dishes`: `[bodyHas("name"), bodyHas("description"),
      priceIsValid, bodyHas("image_url"), create]`. */
  function CreateDish(dishes: seq<Dish>, req: Request, newId: string): (h: Handled<Dish, Dish>)
    ensures h.reply.Sent? <==> FieldsAccepted(req.data)
    ensures h.reply.Failed? ==> h.store == dishes && Some(h.reply.failure) == FieldsFailure(req.data)
    ensures h.reply.Sent? ==>
              h.reply.code == 201 && |h.store| == |dishes| + 1 &&
              h.store[..|dishes|] == dishes && h.store[|dishes|] == h.reply.data
    ensures h.reply.Sent? ==>
              var d, data := h.reply.data, req.data;
              && d.id == newId
              && d.name == Member(data, "name")
              && d.description == Member(data, "description")
              && d.price == Member(data, "price")
              && d.imageUrl == Member(data, "image_url")
  {
    CreateChainOutcome(req);
    match Run(CreateChain(), req, None)
    case Stop(f) => Handled(Failed(f), dishes)
    case Next(_) =>
      var dish := NewDish(newId, req.data);
      Handled(Sent(201, dish), dishes + [dish])
  }

  /** The fields `update` writes over the resolved dish: everything but the
      id. */
  function Overwrite(dish: Dish, data: JsValue): (d: Dish)
    ensures d.id == dish.id
  {
    dish.(name := Member(data, "name"), description := Member(data, "description"),
          price := Member(data, "price"), imageUrl := Member(data, "image_url"))
  }

  /** `PUT /dishes/:dishId`: `[dishExists, idMatches, bodyHas("name"),
      bodyHas("description"), priceIsValid, bodyHas("image_url"), update]`. */
  function UpdateDish(dishes: seq<Dish>, req: Request): (h: Handled<Dish, Dish>)
    ensures h.reply.Sent? <==> UpdateAccepted(dishes, req)
    ensures h.reply.Failed? ==> h.store == dishes
    ensures Find(dishes, HasId(req.routeId)).None? ==> h.reply == Failed(Reject(404, NotFoundMessage(req.routeId)))
    ensures h.reply.Sent? ==>
              var i, data := Find(dishes, HasId(req.routeId)).value, req.data;
              && h.reply.code == 200
              && |h.store| == |dishes|
              && h.store[i] == h.reply.data
              && (forall j :: 0 <= j < |dishes| && j != i ==> h.store[j] == dishes[j])
              && h.reply.data.id == dishes[i].id == req.routeId
              && h.reply.data.name == Member(data, "name")
              && h.reply.data.description == Member(data, "description")
              && h.reply.data.price == Member(data, "price")
              && h.reply.data.imageUrl == Member(data, "image_url")
  {
    UpdateChainOutcome(dishes, req);
    match Run(UpdateChain(dishes), req, None)
    case Stop(f) => Handled(Failed(f), dishes)
    case Next(locals) =>
      if locals.Some? && locals.value.index < |dishes| then
        var updated := Overwrite(locals.value.dish, req.data);
        Handled(Sent(200, updated), dishes[locals.value.index := updated])
      else assert false; Handled(Failed(Thrown), dishes)
  }

  // ---------------------------------------------------------------- properties of the routes

  /** What a stored dish looks like once it went through the validators. */
  predicate ValidDish(d: Dish) {
    Truthy(d.name) && Truthy(d.description) && IsPositiveInteger(d.price) && Truthy(d.imageUrl)
  }

  /** A route of the dishes API, with the id `nextId` would hand out for a
      create. There is no delete. */
  datatype Route =
    | ListAll
    | ReadOne(req: Request)
    | CreateOne(req: Request, newId: string)
    | UpdateOne(req: Request)

  /** The dish list after serving `route`. */
  function Perform(dishes: seq<Dish>, route: Route): seq<Dish> {
    match route
    case ListAll => dishes
    case ReadOne(_) => dishes
    case CreateOne(req, newId) => CreateDish(dishes, req, newId).store
    case UpdateOne(req) => UpdateDish(dishes, req).store
  }

  /** The dish list after serving `routes` one after the other. */
  function PerformAll(dishes: seq<Dish>, routes: seq<Route>): seq<Dish>
    decreases |routes|
  {
    if routes == [] then dishes else PerformAll(Perform(dishes, routes[0]), routes[1..])
  }

  /** No route removes a dish or moves it: every dish keeps its position and
      its id. */
  lemma DishesStayInPlace(dishes: seq<Dish>, route: Route)
    ensures |Perform(dishes, route)| >= |dishes|
    ensures forall i :: 0 <= i < |dishes| ==> Perform(dishes, route)[i].id == dishes[i].id
  {
    match route
    case ListAll =>
    case ReadOne(_) =>
    case CreateOne(req, newId) =>
      var h := CreateDish(dishes, req, newId);
      if h.reply.Sent? {
        forall i | 0 <= i < |dishes| ensures h.store[i].id == dishes[i].id {
          assert h.store[i] == h.store[..|dishes|][i];
        }
      }
    case UpdateOne(req) =>
  }

  /** The dish list never shrinks, and the dishes it held keep their
      positions and ids, whatever requests are served. */
  lemma {:induction false} DishesNeverShrink(dishes: seq<Dish>, routes: seq<Route>)
    ensures |PerformAll(dishes, routes)| >= |dishes|
    ensures forall i :: 0 <= i < |dishes| ==> PerformAll(dishes, routes)[i].id == dishes[i].id
    decreases |routes|
  {
    if routes != [] {
      DishesStayInPlace(dishes, routes[0]);
      DishesNeverShrink(Perform(dishes, routes[0]), routes[1..]);
    }
  }

  /** Every route keeps every dish valid: a list of valid dishes stays one. */
  lemma ValidDishesPreserved(dishes: seq<Dish>, route: Route)
    requires forall i :: 0 <= i < |dishes| ==> ValidDish(dishes[i])
    ensures forall i :: 0 <= i < |Perform(dishes, route)| ==> ValidDish(Perform(dishes, route)[i])
  {
    match route
    case ListAll =>
    case ReadOne(_) =>
    case CreateOne(req, newId) =>
      var h := CreateDish(dishes, req, newId);
      if h.reply.Sent? {
        forall i | 0 <= i < |h.store| ensures ValidDish(h.store[i]) {
          if i < |dishes| {
            assert h.store[i] == h.store[..|dishes|][i];
          }
        }
      }
    case UpdateOne(req) =>
  }

  /** Ids stay unique as long as `nextId` hands out an id not in use. */
  lemma UniqueIdsPreserved(dishes: seq<Dish>, route: Route)
    requires UniqueIds(dishes)
    requires route.CreateOne? ==> FreshId(dishes, route.newId)
    ensures UniqueIds(Perform(dishes, route))
  {
    match route
    case ListAll =>
    case ReadOne(_) =>
    case CreateOne(req, newId) =>
      var h := CreateDish(dishes, req, newId);
      if h.reply.Sent? {
        forall i, j | 0 <= i < j < |h.store| ensures h.store[i].id != h.store[j].id {
          assert h.store[i] == h.store[..|dishes|][i];
          if j < |dishes| {
            assert h.store[j] == h.store[..|dishes|][j];
          }
        }
      }
    case UpdateOne(req) =>
  }

  /** A dish whose price is not an integer greater than 0 is never created,
      whatever its other fields, and the list keeps its length. */
  lemma BadPriceNeverCreated(dishes: seq<Dish>, req: Request, newId: string)
    requires !IsPositiveInteger(Member(req.data, "price"))
    ensures CreateDish(dishes, req, newId).reply.Failed?
    ensures |CreateDish(dishes, req, newId).store| == |dishes|
    ensures !req.data.Null? && Truthy(Member(req.data, "name")) && Truthy(Member(req.data, "description")) ==>
              CreateDish(dishes, req, newId).reply.failure ==
                Reject(400, if Member(req.data, "price").Undefined? then MissingPriceMessage else BadPriceMessage)
  {
  }

  /** `POST /dishes` with name "Taco", description "spicy", price 5 and
      image_url "x" answers 201 with a new dish of price 5 and a fresh id. */
  lemma TacoScenario(dishes: seq<Dish>, newId: string)
    requires newId != "" && FreshId(dishes, newId)
    ensures var data := Obj(map["name" := Str("Taco"), "description" := Str("spicy"), "price" := Num(5), "image_url" := Str("x")]);
            var h := CreateDish(dishes, Request("", data), newId);
            && h.reply == Sent(201, Dish(newId, Str("Taco"), Str("spicy"), Num(5), Str("x")))
            && h.store == dishes + [h.reply.data]
            && h.reply.data.id != ""
            && forall i :: 0 <= i < |dishes| ==> dishes[i].id != h.reply.data.id
  {
    var data := Obj(map["name" := Str("Taco"), "description" := Str("spicy"), "price" := Num(5), "image_url" := Str("x")]);
    var h := CreateDish(dishes, Request("", data), newId);
    assert h.store == h.store[..|dishes|] + [h.store[|dishes|]];
  }

  /** `PUT /dishes/:dishId` with a mismatched body id that `String` cannot
      convert (an object with its own `toString` member) ends in a TypeError
      and leaves the list unchanged. */
  lemma UnprintableIdScenario(dishes: seq<Dish>, routeId: string, fields: map<string, JsValue>)
    requires Find(dishes, HasId(routeId)).Some?
    ensures UpdateDish(dishes, Request(routeId, Obj(fields["id" := Obj(map["toString" := Num(1)])]))) ==
            Handled(Failed(Thrown), dishes)
  {
    var req := Request(routeId, Obj(fields["id" := Obj(map["toString" := Num(1)])]));
    UpdateChainOutcome(dishes, req);
  }

  // ---------------------------------------------------------------- the in-memory dish list

  /** The module-level `dishes` array and the route handlers that read and
      change it. */
  class DishStore {
    var dishes: seq<Dish>

    ghost predicate Valid()
      reads this
    {
      UniqueIds(dishes)
    }

    /** The store starts from the seed data. */
    constructor (seed: seq<Dish>)
      requires UniqueIds(seed)
      ensures Valid() && dishes == seed
    {
      dishes := seed;
    }

    /** `list`: the whole list. */
    method List() returns (r: Reply<seq<Dish>>)
      ensures r == ListDishes(dishes) && r.data == dishes
    {
      r := Sent(200, dishes);
    }

    /** `[dishExists, read]`. */
    method Read(req: Request) returns (r: Reply<Dish>)
      ensures r == ReadDish(dishes, req)
    {
      ResolveChainOutcome(dishes, req);
      var step := Run(ResolveChain(dishes), req, None);
      if step.Stop? {
        return Failed(step.failure);
      }
      r := Sent(200, step.locals.value.dish);
    }

    /** `[bodyHas("name"), bodyHas("description"), priceIsValid,
        bodyHas("image_url"), create]`: pushes the new dish. `newId` is what
        `nextId()` returns. */
    method Create(req: Request, newId: string) returns (r: Reply<Dish>)
      requires Valid() && FreshId(dishes, newId)
      modifies this
      ensures Valid()
      ensures Handled(r, dishes) == CreateDish(old(dishes), req, newId)
    {
      UniqueIdsPreserved(dishes, CreateOne(req, newId));
      var step := Run(CreateChain(), req, None);
      if step.Stop? {
        return Failed(step.failure);
      }
      var dish := NewDish(newId, req.data);
      dishes := dishes + [dish];
      r := Sent(201, dish);
    }

    /** `[dishExists, idMatches, bodyHas("name"), bodyHas("description"),
        priceIsValid, bodyHas("image_url"), update]`: overwrites the resolved
        dish's fields in place. */
    method Update(req: Request) returns (r: Reply<Dish>)
      requires Valid()
      modifies this
      ensures Valid()
      ensures Handled(r, dishes) == UpdateDish(old(dishes), req)
    {
      UniqueIdsPreserved(dishes, UpdateOne(req));
      UpdateChainOutcome(dishes, req);
      var step := Run(UpdateChain(dishes), req, None);
      if step.Stop? {
        return Failed(step.failure);
      }
      var found := step.locals.value;
      var dish := Overwrite(found.dish, req.data);
      dishes := dishes[found.index := dish];
      r := Sent(200, dish);
    }
  }
}
