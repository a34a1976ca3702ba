/**
  The GrubDash orders controller: the validators of the `/orders` routes,
  the route chains built from them, and the in-memory order list they read
  and change.
 */
module OrdersController {
  import opened Wrappers
  import opened JsValues
  import opened ArrayOps
  import opened Middleware

  /** An order record of the in-memory list. Only `id` is fixed by the
      server; the other fields hold whatever a request supplied. */
  datatype Order = Order(id: string, deliverTo: JsValue, mobileNumber: JsValue, status: JsValue, dishes: JsValue)

  /** A request as the order routes see it: the `:orderId` route parameter
      and the `data` member of the JSON body (`Undefined` when absent). */
  datatype Request = Request(routeId: string, data: JsValue)

  /** The order `orderExists` stores in `res.locals.order`: its position in
      the list and its value. */
  datatype Resolved = Resolved(index: nat, order: Order)

  type Locals = Option<Resolved>

  const ValidStatuses: seq<string> := ["pending", "preparing", "out-for-delivery", "delivered"]

  function MissingFieldMessage(field: string): string {
    "Order must include a " + field
  }

  const MissingDishesMessage := "Order must include a dish"
  const NoDishesMessage := "Order must include at least one dish"
  const MissingStatusMessage := "Order must have a status"
  const InvalidStatusMessage := "Order must have a status of pending, preparing, out-for-delivery, delivered"
  const DeliveredMessage := "A delivered order cannot be changed"
  const NotPendingMessage := "An order cannot be deleted unless it is pending"

  function QuantityMessage(index: nat): string {
    "Dish " + NatToString(index) + " must have a quantity that is an integer greater than 0"
  }

  function NotFoundMessage(routeId: string): string {
    "Order not found: " + routeId
  }

  /** The mismatch error, with `text` the body id as a template literal
      renders it. */
  function IdMismatchMessage(text: string, routeId: string): string {
    "Order id does not match route id. Order: " + text + ", Route: " + routeId
  }

  /** The quantity error names its index unambiguously: two indices never
      produce the same message. */
  lemma QuantityMessageNamesIndex(i: nat, j: nat)
    requires QuantityMessage(i) == QuantityMessage(j)
    ensures i == j
  {
    var prefix, suffix := "Dish ", " must have a quantity that is an integer greater than 0";
    var m := QuantityMessage(i);
    assert |NatToString(i)| == |NatToString(j)|;
    var n := |NatToString(i)|;
    assert m[|prefix|..|prefix| + n] == NatToString(i);
    assert QuantityMessage(j)[|prefix|..|prefix| + n] == NatToString(j);
    NatToStringInjective(i, j);
  }

  function HasId(id: string): Order -> bool {
    (o: Order) => o.id == id
  }

  /** No two orders share an id. */
  ghost predicate UniqueIds(orders: seq<Order>) {
    forall i, j :: 0 <= i < j < |orders| ==> orders[i].id != orders[j].id
  }

  /** `id` is not the id of any order (what `nextId` guarantees). */
  ghost predicate FreshId(orders: seq<Order>, id: string) {
    forall i :: 0 <= i < |orders| ==> orders[i].id != id
  }

  // ---------------------------------------------------------------- validators

  /** `bodyHas(field)`: the body's `data[field]` must be truthy. */
  function BodyHas(field: string, req: Request, locals: Locals): (r: Step<Locals>)
    ensures r.Next? <==> !req.data.Null? && Truthy(Member(req.data, field))
    ensures r.Next? ==> r.locals == locals
    ensures r.Stop? ==> r.failure == if req.data.Null? then Thrown else Reject(400, MissingFieldMessage(field))
  {
    match Field(req.data, field)
    case None => Stop(Thrown)
    case Some(v) => if Truthy(v) then Next(locals) else Stop(Reject(400, MissingFieldMessage(field)))
  }

  /** The quantity of one element of `dishes` is an integer greater than 0
      (reading it does not throw, and it is neither undefined, null, a
      non-number, a non-integer nor <= 0). */
  function QuantityOk(dish: JsValue): (ok: bool)
    ensures ok <==> dish.Obj? && "quantity" in dish.fields && IsPositiveInteger(dish.fields["quantity"])
  {
    match Get(dish, "quantity")
    case None => false
    case Some(q) => !(q.Undefined? || q.Null? || !IsNumber(q) || !IsInteger(q) || q.n <= 0)
  }

  /** An order's `dishes` value as `dishesIsValid` accepts it. */
  predicate ValidDishes(dishes: JsValue) {
    dishes.Arr? && |dishes.elems| > 0 && forall i :: 0 <= i < |dishes.elems| ==> QuantityOk(dishes.elems[i])
  }

  /** The loop of `dishesIsValid` from position `index` on: the first
      position at or after `index` whose quantity is rejected, if any. */
  function FirstBadQuantity(dishes: seq<JsValue>, index: nat): (r: Option<nat>)
    requires index <= |dishes|
    ensures r.None? <==> forall i :: index <= i < |dishes| ==> QuantityOk(dishes[i])
    ensures r.Some? ==> index <= r.value < |dishes| && !QuantityOk(dishes[r.value])
    ensures r.Some? ==> forall i :: index <= i < r.value ==> QuantityOk(dishes[i])
    decreases |dishes| - index
  {
    if index == |dishes| then None
    else if !QuantityOk(dishes[index]) then Some(index)
    else FirstBadQuantity(dishes, index + 1)
  }

  /** The failure reported for the dish at `index`: reading `.quantity` of
      a null or undefined element throws; any other element gets the
      quantity message naming its index. */
  function QuantityFailure(dish: JsValue, index: nat): Failure {
    if dish.Undefined? || dish.Null? then Thrown else Reject(400, QuantityMessage(index))
  }

  /** A non-empty `dishes` array whose first rejected element is null or
      undefined, so that reading its `quantity` throws. */
  predicate NullDishFirst(dishes: JsValue) {
    && dishes.Arr? && |dishes.elems| > 0
    && var bad := FirstBadQuantity(dishes.elems, 0);
    && bad.Some? && (dishes.elems[bad.value].Undefined? || dishes.elems[bad.value].Null?)
  }

  /** `dishesIsValid`. */
  function DishesIsValid(req: Request, locals: Locals): (r: Step<Locals>)
    ensures req.data.Null? ==> r == Stop(Thrown)
    ensures !req.data.Null? && !Truthy(Member(req.data, "dishes")) ==> r == Stop(Reject(400, MissingDishesMessage))
    ensures !req.data.Null? && Truthy(Member(req.data, "dishes")) && !(Member(req.data, "dishes").Arr? && |Member(req.data, "dishes").elems| > 0) ==>
              r == Stop(Reject(400, NoDishesMessage))
    ensures r.Next? <==> !req.data.Null? && ValidDishes(Member(req.data, "dishes"))
    ensures r.Next? ==> r.locals == locals
    ensures !req.data.Null? && Member(req.data, "dishes").Arr? && |Member(req.data, "dishes").elems| > 0 && r.Stop? ==>
              var elems := Member(req.data, "dishes").elems;
              exists i :: 0 <= i < |elems| && !QuantityOk(elems[i]) && (forall j :: 0 <= j < i ==> QuantityOk(elems[j])) &&
                          r.failure == QuantityFailure(elems[i], i)
  {
    match Field(req.data, "dishes")
    case None => Stop(Thrown)
    case Some(dishes) =>
      if !Truthy(dishes) then Stop(Reject(400, MissingDishesMessage))
      else if !dishes.Arr? || |dishes.elems| == 0 then Stop(Reject(400, NoDishesMessage))
      else match FirstBadQuantity(dishes.elems, 0)
        case None => Next(locals)
        case Some(i) => Stop(QuantityFailure(dishes.elems[i], i))
  }

  /** One of the four statuses of `VALID_STATUSES`. */
  predicate IsValidStatus(status: JsValue) {
    status.Str? && status.s in ValidStatuses
  }

  /** The order resolved earlier in the chain is already delivered. */
  predicate ResolvedDelivered(locals: Locals) {
    locals.Some? && locals.value.order.status == Str("delivered")
  }

  /** `statusIsValidForUpdate`: checks, in this order, that a status is
      given, that it is one of the four, and that the order being updated
      is not delivered yet. No other transition is refused. */
  function StatusIsValidForUpdate(req: Request, locals: Locals): (r: Step<Locals>)
    ensures req.data.Null? ==> r == Stop(Thrown)
    ensures !req.data.Null? && !Truthy(Member(req.data, "status")) ==> r == Stop(Reject(400, MissingStatusMessage))
    ensures !req.data.Null? && Truthy(Member(req.data, "status")) && !IsValidStatus(Member(req.data, "status")) ==>
              r == Stop(Reject(400, InvalidStatusMessage))
    ensures !req.data.Null? && IsValidStatus(Member(req.data, "status")) && ResolvedDelivered(locals) ==>
              r == Stop(Reject(400, DeliveredMessage))
    ensures r.Next? <==> !req.data.Null? && IsValidStatus(Member(req.data, "status")) && !ResolvedDelivered(locals)
    ensures r.Next? ==> r.locals == locals
  {
    match Field(req.data, "status")
    case None => Stop(Thrown)
    case Some(status) =>
      if !Truthy(status) || status == Str("") then Stop(Reject(400, MissingStatusMessage))
      else if !(status.Str? && status.s in ValidStatuses) then Stop(Reject(400, InvalidStatusMessage))
      else if locals.Some? && locals.value.order.status == Str("delivered") then Stop(Reject(400, DeliveredMessage))
      else Next(locals)
  }

  /** `orderExists`: resolves the first order whose id is the route id. */
  function OrderExists(orders: seq<Order>, req: Request, locals: Locals): (r: Step<Locals>)
    ensures r.Stop? <==> forall i :: 0 <= i < |orders| ==> orders[i].id != req.routeId
    ensures r.Stop? ==> r.failure == Reject(404, NotFoundMessage(req.routeId))
    ensures r.Next? ==> r.locals.Some? && r.locals.value.index < |orders|
    ensures r.Next? ==> var i := r.locals.value.index;
              r.locals.value.order == orders[i] && orders[i].id == req.routeId &&
              forall j :: 0 <= j < i ==> orders[j].id != req.routeId
  {
    match Find(orders, HasId(req.routeId))
    case Some(i) => Next(Some(Resolved(i, orders[i])))
    case None => Stop(Reject(404, NotFoundMessage(req.routeId)))
  }

  /** `idMatches`: an id in the body, when truthy, must be the route id.
      Rendering a mismatched id into the message throws for an id that
      `String` cannot convert. */
  function IdMatches(req: Request, locals: Locals): (r: Step<Locals>)
    ensures r.Next? <==> !req.data.Null? && (!Truthy(Member(req.data, "id")) || Member(req.data, "id") == Str(req.routeId))
    ensures r.Next? ==> r.locals == locals
    ensures r.Stop? ==> r.failure == if req.data.Null? || Unprintable(Member(req.data, "id")) then Thrown
                                     else Reject(400, IdMismatchMessage(Display(Member(req.data, "id")).value, req.routeId))
  {
    match Field(req.data, "id")
    case None => Stop(Thrown)
    case Some(id) =>
      if Truthy(id) && id != Str(req.routeId) then
        match Display(id)
        case None => Stop(Thrown)
        case Some(text) => Stop(Reject(400, IdMismatchMessage(text, req.routeId)))
      else Next(locals)
  }

  // ---------------------------------------------------------------- route chains

  /** The validators of `POST /orders`, in order. */
  function CreateChain(): seq<Handler<Request, Locals>> {
    [(req: Request, l: Locals) => BodyHas("deliverTo", req, l),
     (req: Request, l: Locals) => BodyHas("mobileNumber", req, l),
     DishesIsValid]
  }

  /** The validators of `GET /orders/:orderId` and `DELETE /orders/:orderId`. */
  function ResolveChain(orders: seq<Order>): seq<Handler<Request, Locals>> {
    [(req: Request, l: Locals) => OrderExists(orders, req, l)]
  }

  /** The validators of `PUT /orders/:orderId`, in order. */
  function UpdateChain(orders: seq<Order>): seq<Handler<Request, Locals>> {
    [(req: Request, l: Locals) => OrderExists(orders, req, l),
     IdMatches,
     (req: Request, l: Locals) => BodyHas("deliverTo", req, l),
     (req: Request, l: Locals) => BodyHas("mobileNumber", req, l),
     DishesIsValid,
     StatusIsValidForUpdate]
  }

  // ---------------------------------------------------------------- what the chains decide

  /** Every check of `POST /orders` passes. */
  predicate CreateAccepted(req: Request) {
    && !req.data.Null?
    && Truthy(Member(req.data, "deliverTo"))
    && Truthy(Member(req.data, "mobileNumber"))
    && ValidDishes(Member(req.data, "dishes"))
  }

  /** The create chain passes exactly when every check passes, and reports
      the first failing check otherwise. */
  lemma CreateChainOutcome(req: Request)
    ensures var r := Run(CreateChain(), req, None);
      && (r.Next? <==> CreateAccepted(req))
      && (req.data.Null? ==> r == Stop(Thrown))
      && (!req.data.Null? && !Truthy(Member(req.data, "deliverTo")) ==> r == Stop(Reject(400, MissingFieldMessage("deliverTo"))))
      && (!req.data.Null? && Truthy(Member(req.data, "deliverTo")) && !Truthy(Member(req.data, "mobileNumber")) ==>
              r == Stop(Reject(400, MissingFieldMessage("mobileNumber"))))
      && (!req.data.Null? && Truthy(Member(req.data, "deliverTo")) && Truthy(Member(req.data, "mobileNumber")) ==>
              r == DishesIsValid(req, None))
  {
    var c := CreateChain();
    assert c[0..] == c;
    assert c[3..] == [];
    RunFrom(c, 0, req, None);
    RunFrom(c, 1, req, None);
    RunFrom(c, 2, req, None);
  }

  /** The chain of `GET` and `DELETE /orders/:orderId` resolves the first
      order with the route id, or answers 404. */
  lemma ResolveChainOutcome(orders: seq<Order>, req: Request)
    ensures Run(ResolveChain(orders), req, None) == OrderExists(orders, req, None)
  {
    var c := ResolveChain(orders);
    assert c[0..] == c;
    assert c[1..] == [];
    RunFrom(c, 0, req, None);
  }

  /** Every check of `PUT /orders/:orderId` passes. */
  predicate UpdateAccepted(orders: seq<Order>, req: Request) {
    var found := Find(orders, HasId(req.routeId));
    var data := req.data;
    && found.Some?
    && !data.Null?
    && (!Truthy(Member(data, "id")) || Member(data, "id") == Str(req.routeId))
    && Truthy(Member(data, "deliverTo"))
    && Truthy(Member(data, "mobileNumber"))
    && ValidDishes(Member(data, "dishes"))
    && IsValidStatus(Member(data, "status"))
    && orders[found.value].status != Str("delivered")
  }

  /** The update chain passes exactly when every check passes, leaving the
      resolved order in the locals; otherwise the first failing check
      decides the error. */
  lemma UpdateChainOutcome(orders: seq<Order>, req: Request)
    ensures var r := Run(UpdateChain(orders), req, None);
      var found := OrderExists(orders, req, None);
      var data := req.data;
      && (r.Next? <==> UpdateAccepted(orders, req))
      && (r.Next? ==> r.locals == found.locals)
      && (found.Stop? ==> r == found)
      && (found.Next? && data.Null? ==> r == Stop(Thrown))
      && (found.Next? && !data.Null? ==> (IdMatches(req, found.locals).Stop? ==> r == IdMatches(req, found.locals)))
      && (found.Next? && IdMatches(req, found.locals).Next? && !Truthy(Member(data, "deliverTo")) ==>
              r == Stop(Reject(400, MissingFieldMessage("deliverTo"))))
      && (found.Next? && IdMatches(req, found.locals).Next? && Truthy(Member(data, "deliverTo")) && !Truthy(Member(data, "mobileNumber")) ==>
              r == Stop(Reject(400, MissingFieldMessage("mobileNumber"))))
      && (found.Next? && IdMatches(req, found.locals).Next? && Truthy(Member(data, "deliverTo")) && Truthy(Member(data, "mobileNumber")) ==>
              (if DishesIsValid(req, found.locals).Stop? then r == DishesIsValid(req, found.locals)
                 else r == StatusIsValidForUpdate(req, found.locals)))
  {
    var c := UpdateChain(orders);
    assert c[0..] == c;
    assert c[6..] == [];
    RunFrom(c, 0, req, None);
    var s0 := OrderExists(orders, req, None);
    if s0.Next? {
      var l := s0.locals;
      RunFrom(c, 1, req, l);
      RunFrom(c, 2, req, l);
      RunFrom(c, 3, req, l);
      RunFrom(c, 4, req, l);
      RunFrom(c, 5, req, l);
    }
  }

  // ---------------------------------------------------------------- routes

  /** The record `create` appends: a fresh id, the submitted fields, and the
      submitted status when it is truthy, `"pending"` otherwise. */
  function NewOrder(id: string, data: JsValue): (o: Order)
    ensures o.id == id
    ensures Truthy(o.status)
    ensures !Truthy(Member(data, "status")) ==> o.status == Str("pending")
  {
    var status := Member(data, "status");
    Order(id, Member(data, "deliverTo"), Member(data, "mobileNumber"),
          if Truthy(status) then status else Str("pending"), Member(data, "dishes"))
  }

  /** `GET /orders`. */
  function ListOrders(orders: seq<Order>): Reply<seq<Order>> {
    Sent(200, orders)
  }

  /** `GET /orders/:orderId`: `[orderExists, read]`. */
  function ReadOrder(orders: seq<Order>, req: Request): (r: Reply<Order>)
    ensures r.Sent? <==> Find(orders, HasId(req.routeId)).Some?
    ensures r.Sent? ==> r == Sent(200, orders[Find(orders, HasId(req.routeId)).value])
    ensures r.Failed? ==> r.failure == Reject(404, NotFoundMessage(req.routeId))
  {
    ResolveChainOutcome(orders, req);
    match Run(ResolveChain(orders), req, None)
    case Stop(f) => Failed(f)
    case Next(locals) =>
      if locals.Some? then Sent(200, locals.value.order)
      else assert false; Failed(Thrown)
  }

  /** `POST /orders`: `[bodyHas("deliverTo"), bodyHas("mobileNumber"),
      dishesIsValid, create]`. The status is not validated on create. */
  function CreateOrder(orders: seq<Order>, req: Request, newId: string): (h: Handled<Order, Order>)
    ensures h.reply.Sent? <==> CreateAccepted(req)
    ensures h.reply.Failed? ==> h.store == orders
    ensures h.reply.Sent? ==>
              h.reply.code == 201 && |h.store| == |orders| + 1 &&
              h.store[..|orders|] == orders && h.store[|orders|] == h.reply.data
    ensures h.reply.Sent? ==>
              var o, data := h.reply.data, req.data;
              && o.id == newId
              && o.deliverTo == Member(data, "deliverTo")
              && o.mobileNumber == Member(data, "mobileNumber")
              && o.dishes == Member(data, "dishes")
              && o.status == (if Truthy(Member(data, "status")) then Member(data, "status") else Str("pending"))
  {
    CreateChainOutcome(req);
    match Run(CreateChain(), req, None)
    case Stop(f) => Handled(Failed(f), orders)
    case Next(_) =>
      var order := NewOrder(newId, req.data);
      Handled(Sent(201, order), orders + [order])
  }

  /** The fields `update` writes over the resolved order: a full replace of
      everything but the id. */
  function Overwrite(order: Order, data: JsValue): (o: Order)
    ensures o.id == order.id
  {
    order.(deliverTo := Member(data, "deliverTo"), mobileNumber := Member(data, "mobileNumber"),
           status := Member(data, "status"), dishes := Member(data, "dishes"))
  }

  /** `PUT /orders/:orderId`: `[orderExists, idMatches, bodyHas("deliverTo"),
      bodyHas("mobileNumber"), dishesIsValid, statusIsValidForUpdate, update]`. */
  function UpdateOrder(orders: seq<Order>, req: Request): (h: Handled<Order, Order>)
    ensures h.reply.Sent? <==> UpdateAccepted(orders, req)
    ensures h.reply.Failed? ==> h.store == orders
    ensures Find(orders, HasId(req.routeId)).None? ==> h.reply == Failed(Reject(404, NotFoundMessage(req.routeId)))
    ensures h.reply.Sent? ==>
              var i, data := Find(orders, HasId(req.routeId)).value, req.data;
              && h.reply.code == 200
              && |h.store| == |orders|
              && h.store[i] == h.reply.data
              && (forall j :: 0 <= j < |orders| && j != i ==> h.store[j] == orders[j])
              && h.reply.data.id == orders[i].id == req.routeId
              && h.reply.data.deliverTo == Member(data, "deliverTo")
              && h.reply.data.mobileNumber == Member(data, "mobileNumber")
              && h.reply.data.status == Member(data, "status")
              && h.reply.data.dishes == Member(data, "dishes")
    ensures h.reply.Sent? ==> IsValidStatus(h.reply.data.status)
  {
    UpdateChainOutcome(orders, req);
    match Run(UpdateChain(orders), req, None)
    case Stop(f) => Handled(Failed(f), orders)
    case Next(locals) =>
      if locals.Some? && locals.value.index < |orders| then
        var updated := Overwrite(locals.value.order, req.data);
        Handled(Sent(200, updated), orders[locals.value.index := updated])
      else assert false; Handled(Failed(Thrown), orders)
  }

  /** `DELETE /orders/:orderId`: `[orderExists, destroy]`. Only a pending
      order is removed; the others keep their relative order. */
  function DeleteOrder(orders: seq<Order>, req: Request): (h: Handled<(), Order>)
    ensures Find(orders, HasId(req.routeId)).None? ==>
              h == Handled(Failed(Reject(404, NotFoundMessage(req.routeId))), orders)
    ensures Find(orders, HasId(req.routeId)).Some? ==>
              var i := Find(orders, HasId(req.routeId)).value;
              if orders[i].status != Str("pending") then h == Handled(Failed(Reject(400, NotPendingMessage)), orders)
              else h == Handled(Sent(204, ()), RemoveAt(orders, i))
  {
    ResolveChainOutcome(orders, req);
    match Run(ResolveChain(orders), req, None)
    case Stop(f) => Handled(Failed(f), orders)
    case Next(locals) =>
      if locals.Some? && locals.value.index < |orders| then
        if locals.value.order.status != Str("pending") then Handled(Failed(Reject(400, NotPendingMessage)), orders)
        else Handled(Sent(204, ()), RemoveAt(orders, locals.value.index))
      else assert false; Handled(Failed(Thrown), orders)
  }

  // ---------------------------------------------------------------- properties of the routes

  /** A PUT on an order that is already delivered never succeeds and never
      changes the list. Every error it can get is a 400 (or a TypeError),
      and a body that passes every other check gets the delivered error. */
  lemma DeliveredOrderCannotBeUpdated(orders: seq<Order>, req: Request)
    requires Find(orders, HasId(req.routeId)).Some?
    requires orders[Find(orders, HasId(req.routeId)).value].status == Str("delivered")
    ensures UpdateOrder(orders, req).reply.Failed?
    ensures UpdateOrder(orders, req).store == orders
    ensures UpdateOrder(orders, req).reply.failure.Reject? ==> UpdateOrder(orders, req).reply.failure.status == 400
    ensures !req.data.Null? && (!Truthy(Member(req.data, "id")) || Member(req.data, "id") == Str(req.routeId)) &&
            Truthy(Member(req.data, "deliverTo")) && Truthy(Member(req.data, "mobileNumber")) &&
            ValidDishes(Member(req.data, "dishes")) && IsValidStatus(Member(req.data, "status")) ==>
              UpdateOrder(orders, req).reply == Failed(Reject(400, DeliveredMessage))
    ensures req.data.Null? ==> UpdateOrder(orders, req).reply == Failed(Thrown)
    ensures !req.data.Null? && Truthy(Member(req.data, "id")) && Member(req.data, "id") != Str(req.routeId) &&
            Unprintable(Member(req.data, "id")) ==>
              UpdateOrder(orders, req).reply == Failed(Thrown)
    ensures !req.data.Null? && (!Truthy(Member(req.data, "id")) || Member(req.data, "id") == Str(req.routeId)) &&
            Truthy(Member(req.data, "deliverTo")) && Truthy(Member(req.data, "mobileNumber")) &&
            NullDishFirst(Member(req.data, "dishes")) ==>
              UpdateOrder(orders, req).reply == Failed(Thrown)
  {
    UpdateChainOutcome(orders, req);
    var found := OrderExists(orders, req, None);
    var r := Run(UpdateChain(orders), req, None);
    if found.Next? && !req.data.Null? && IdMatches(req, found.locals).Next? &&
       Truthy(Member(req.data, "deliverTo")) && Truthy(Member(req.data, "mobileNumber")) &&
       DishesIsValid(req, found.locals).Stop? {
      if Member(req.data, "dishes").Arr? && |Member(req.data, "dishes").elems| > 0 {
        var elems := Member(req.data, "dishes").elems;
        var i :| 0 <= i < |elems| && !QuantityOk(elems[i]) && (forall j :: 0 <= j < i ==> QuantityOk(elems[j])) &&
                 DishesIsValid(req, found.locals).failure == QuantityFailure(elems[i], i);
      }
    }
  }

  /** The shape every validated order has: truthy `deliverTo` and
      `mobileNumber`, and a non-empty `dishes` array of positive integer
      quantities. */
  predicate WellFormed(o: Order) {
    Truthy(o.deliverTo) && Truthy(o.mobileNumber) && ValidDishes(o.dishes)
  }

  /** A route of the orders API, with the id `nextId` would hand out for a
      create. */
  datatype Route =
    | ListAll
    | ReadOne(req: Request)
    | CreateOne(req: Request, newId: string)
    | UpdateOne(req: Request)
    | DeleteOne(req: Request)

  /** The order list after serving `route`. */
  function Perform(orders: seq<Order>, route: Route): seq<Order> {
    match route
    case ListAll => orders
    case ReadOne(_) => orders
    case CreateOne(req, newId) => CreateOrder(orders, req, newId).store
    case UpdateOne(req) => UpdateOrder(orders, req).store
    case DeleteOne(req) => DeleteOrder(orders, req).store
  }

  /** The order list after serving `routes` one after the other. */
  function PerformAll(orders: seq<Order>, routes: seq<Route>): seq<Order>
    decreases |routes|
  {
    if routes == [] then orders else PerformAll(Perform(orders, routes[0]), routes[1..])
  }

  /** No route changes or removes a delivered order: it stays at its
      position, unless a delete removed another order, in which case the
      list is that removal. */
  lemma DeliveredOrderStays(orders: seq<Order>, route: Route, k: nat)
    requires k < |orders| && orders[k].status == Str("delivered")
    ensures var after := Perform(orders, route);
            || (|after| >= |orders| && after[k] == orders[k])
            || (exists j :: 0 <= j < |orders| && j != k && after == RemoveAt(orders, j))
    ensures orders[k] in Perform(orders, route)
  {
    match route
    case ListAll =>
    case ReadOne(_) =>
    case CreateOne(req, newId) =>
      var h := CreateOrder(orders, req, newId);
      if h.reply.Sent? {
        assert h.store[k] == h.store[..|orders|][k];
      }
    case UpdateOne(req) =>
      var h := UpdateOrder(orders, req);
      if h.reply.Sent? {
        assert h.store[k] == orders[k];
      }
    case DeleteOne(req) =>
      var h := DeleteOrder(orders, req);
      if h.reply.Sent? {
        var i := Find(orders, HasId(req.routeId)).value;
        if k < i {
          assert h.store[k] == orders[k];
        } else {
          assert h.store[k - 1] == orders[k];
        }
      }
  }

  /** Once delivered, an order survives unchanged whatever requests follow. */
  lemma {:induction false} DeliveredOrderStaysForever(orders: seq<Order>, routes: seq<Route>, o: Order)
    requires o in orders && o.status == Str("delivered")
    ensures o in PerformAll(orders, routes)
    decreases |routes|
  {
    if routes != [] {
      var k :| 0 <= k < |orders| && orders[k] == o;
      DeliveredOrderStays(orders, routes[0], k);
      DeliveredOrderStaysForever(Perform(orders, routes[0]), routes[1..], o);
    }
  }

  /** Ids stay unique as long as `nextId` hands out an id not in use. */
  lemma UniqueIdsPreserved(orders: seq<Order>, route: Route)
    requires UniqueIds(orders)
    requires route.CreateOne? ==> FreshId(orders, route.newId)
    ensures UniqueIds(Perform(orders, route))
  {
    match route
    case ListAll =>
    case ReadOne(_) =>
    case CreateOne(req, newId) =>
      var h := CreateOrder(orders, req, newId);
      if h.reply.Sent? {
        forall i, j | 0 <= i < j < |h.store| ensures h.store[i].id != h.store[j].id {
          assert h.store[i] == orders[i];
          if j < |orders| {
            assert h.store[j] == orders[j];
          }
        }
      }
    case UpdateOne(req) =>
    case DeleteOne(req) =>
  }

  /** Once an order is deleted, no order with its id is left (ids being
      unique). */
  lemma DeletedOrderIsGone(orders: seq<Order>, req: Request)
    requires UniqueIds(orders)
    requires DeleteOrder(orders, req).reply.Sent?
    ensures forall o :: o in DeleteOrder(orders, req).store ==> o.id != req.routeId
    ensures |DeleteOrder(orders, req).store| == |orders| - 1
  {
    var i := Find(orders, HasId(req.routeId)).value;
    var rest := DeleteOrder(orders, req).store;
    forall o | o in rest ensures o.id != req.routeId {
      var k :| 0 <= k < |rest| && rest[k] == o;
      if k < i {
        assert rest[k] == orders[k];
      } else {
        assert rest[k] == orders[k + 1];
      }
    }
  }

  /** Orders that passed validation keep their shape: every route leaves
      only well-formed orders behind if it found only well-formed ones. The
      status is not part of it: create stores any truthy status unchecked. */
  lemma WellFormedPreserved(orders: seq<Order>, route: Route)
    requires forall i :: 0 <= i < |orders| ==> WellFormed(orders[i])
    ensures forall i :: 0 <= i < |Perform(orders, route)| ==> WellFormed(Perform(orders, route)[i])
  {
    match route
    case ListAll =>
    case ReadOne(_) =>
    case CreateOne(req, newId) =>
      var h := CreateOrder(orders, req, newId);
      if h.reply.Sent? {
        forall i | 0 <= i < |h.store| ensures WellFormed(h.store[i]) {
          if i < |orders| {
            assert h.store[i] == h.store[..|orders|][i];
          }
        }
      }
    case UpdateOne(req) =>
    case DeleteOne(req) =>
      var h := DeleteOrder(orders, req);
      if h.reply.Sent? {
        forall i | 0 <= i < |h.store| ensures WellFormed(h.store[i]) {
          var k := Find(orders, HasId(req.routeId)).value;
          if i < k {
            assert h.store[i] == orders[i];
          } else {
            assert h.store[i] == orders[i + 1];
          }
        }
      }
  }

  /** Create does not validate the status: a truthy status outside the four
      is stored as given. */
  lemma CreateKeepsUncheckedStatus(orders: seq<Order>, newId: string)
    ensures var data := Obj(map["deliverTo" := Str("Rick"), "mobileNumber" := Str("(202) 456-1111"),
                                "dishes" := Arr([Obj(map["quantity" := Num(1)])]), "status" := Str("bogus")]);
            var h := CreateOrder(orders, Request("", data), newId);
            h.reply.Sent? && h.reply.data.status == Str("bogus") && !IsValidStatus(h.reply.data.status)
  {
    var dish := Obj(map["quantity" := Num(1)]);
    assert QuantityOk(dish);
    assert ValidDishes(Arr([dish]));
  }

  /** `PUT /orders/42` with body id "99" fails with the message naming both
      ids, whatever else the body holds. */
  lemma IdMismatchScenario(orders: seq<Order>, fields: map<string, JsValue>)
    requires Find(orders, HasId("42")).Some?
    ensures UpdateOrder(orders, Request("42", Obj(fields["id" := Str("99")]))).reply ==
            Failed(Reject(400, "Order id does not match route id. Order: 99, Route: 42"))
  {
    var req := Request("42", Obj(fields["id" := Str("99")]));
    var found := OrderExists(orders, req, None);
    assert Member(req.data, "id") == Str("99");
    assert Display(Str("99")) == Some("99");
    assert IdMatches(req, found.locals) == Stop(Reject(400, IdMismatchMessage("99", "42")));
    UpdateChainOutcome(orders, req);
  }

  /** `PUT /orders/42` with a body id that is an object with its own
      `toString` member: rendering the id into the mismatch message throws,
      so the request ends in a TypeError and the list is unchanged. */
  lemma UnprintableIdScenario(orders: seq<Order>, fields: map<string, JsValue>)
    requires Find(orders, HasId("42")).Some?
    ensures UpdateOrder(orders, Request("42", Obj(fields["id" := Obj(map["toString" := Num(1)])]))) ==
            Handled(Failed(Thrown), orders)
  {
    var req := Request("42", Obj(fields["id" := Obj(map["toString" := Num(1)])]));
    UpdateChainOutcome(orders, req);
  }

  /** `POST /orders` with an empty `dishes` array fails with "at least one
      dish" and adds nothing. */
  lemma EmptyDishesScenario(orders: seq<Order>, newId: string, deliverTo: string, mobileNumber: string)
    requires deliverTo != "" && mobileNumber != ""
    ensures var data := Obj(map["deliverTo" := Str(deliverTo), "mobileNumber" := Str(mobileNumber), "dishes" := Arr([])]);
            CreateOrder(orders, Request("", data), newId) == Handled(Failed(Reject(400, NoDishesMessage)), orders)
  {
    var data := Obj(map["deliverTo" := Str(deliverTo), "mobileNumber" := Str(mobileNumber), "dishes" := Arr([])]);
    CreateChainOutcome(Request("", data));
  }

  // ---------------------------------------------------------------- the in-memory order list

  /** The module-level `orders` array and the route handlers that read and
      change it. */
  class OrderStore {
    var orders: seq<Order>

    ghost predicate Valid()
      reads this
    {
      UniqueIds(orders)
    }

    /** The store starts from the seed data. */
    constructor (seed: seq<Order>)
      requires UniqueIds(seed)
      ensures Valid() && orders == seed
    {
      orders := seed;
    }

    /** `list`: the whole list. */
    method List() returns (r: Reply<seq<Order>>)
      ensures r == ListOrders(orders) && r.data == orders
    {
      r := Sent(200, orders);
    }

    /** `[orderExists, read]`. */
    method Read(req: Request) returns (r: Reply<Order>)
      ensures r == ReadOrder(orders, req)
    {
      ResolveChainOutcome(orders, req);
      var step := Run(ResolveChain(orders), req, None);
      if step.Stop? {
        return Failed(step.failure);
      }
      r := Sent(200, step.locals.value.order);
    }

    /** `[bodyHas("deliverTo"), bodyHas("mobileNumber"), dishesIsValid,
        create]`: pushes the new order. `newId` is what `nextId()` returns. */
    method Create(req: Request, newId: string) returns (r: Reply<Order>)
      requires Valid() && FreshId(orders, newId)
      modifies this
      ensures Valid()
      ensures Handled(r, orders) == CreateOrder(old(orders), req, newId)
    {
      UniqueIdsPreserved(orders, CreateOne(req, newId));
      var step := Run(CreateChain(), req, None);
      if step.Stop? {
        return Failed(step.failure);
      }
      var order := NewOrder(newId, req.data);
      orders := orders + [order];
      r := Sent(201, order);
    }

    /** `[orderExists, idMatches, bodyHas("deliverTo"),
        bodyHas("mobileNumber"), dishesIsValid, statusIsValidForUpdate,
        update]`: overwrites the resolved order's fields in place. */
    method Update(req: Request) returns (r: Reply<Order>)
      requires Valid()
      modifies this
      ensures Valid()
      ensures Handled(r, orders) == UpdateOrder(old(orders), req)
    {
      UniqueIdsPreserved(orders, UpdateOne(req));
      UpdateChainOutcome(orders, req);
      var step := Run(UpdateChain(orders), req, None);
      if step.Stop? {
        return Failed(step.failure);
      }
      var found := step.locals.value;
      var order := Overwrite(found.order, req.data);
      orders := orders[found.index := order];
      r := Sent(200, order);
    }

    /** `[orderExists, destroy]`: refuses unless the order is pending, then
        finds it again with `findIndex` and splices it out. */
    method Destroy(req: Request) returns (r: Reply<()>)
      requires Valid()
      modifies this
      ensures Valid()
      ensures Handled(r, orders) == DeleteOrder(old(orders), req)
    {
      UniqueIdsPreserved(orders, DeleteOne(req));
      ResolveChainOutcome(orders, req);
      var step := Run(ResolveChain(orders), req, None);
      if step.Stop? {
        return Failed(step.failure);
      }
      var order := step.locals.value.order;
      if order.status != Str("pending") {
        return Failed(Reject(400, NotPendingMessage));
      }
      var index := FindIndex(orders, HasId(order.id));
      orders := RemoveAt(orders, index);
      r := Sent(204, ());
    }
  }
}
