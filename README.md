# GrubDash request validation and in-memory stores, in Dafny

GrubDash is a small Express API for a food-delivery service. It holds two in-memory lists, dishes and orders. Every route is an ordered array of middleware: validators that either call `next()` or `next({status, message})`, followed by a handler that reads or changes the list. The first validator that fails decides the response.

This project models the two controllers that hold that logic (`orders.controller.js` and `dishes.controller.js`):

- **Values.** `JsValues` represents the JSON payload values JavaScript sees: undefined, null, booleans, integer numbers, non-integer numbers, strings, arrays and objects. It defines JavaScript truthiness, `typeof x === "number"`, `Number.isInteger` and property reads over them. Reading a property of `null` throws a TypeError, and the model keeps that as the failure `Thrown`. It also defines the string rendering that the error messages interpolate.
- **Chains.** `Middleware` models a route as a sequence of middleware and `Run` as the short-circuiting fold that Express performs with `next`. The lemmas prove that the first failure wins and that nothing after it runs.
- **Controllers.** `OrdersController` and `DishesController` contain:
  - every validator, as a function with its contract;
  - each exported chain, exactly as in `module.exports`;
  - one function per route that returns the reply and the list as the route leaves it;
  - the lemmas about those routes;
  - a class (`OrderStore`, `DishStore`) whose field is the module-level array and whose methods change it the way the handlers do. `push` appends, `update` overwrites the fields of the resolved record, and `destroy` runs `findIndex` and then `splice`.
- **Array helpers.** `ArrayOps` models `find`, `findIndex` (a loop) and `splice(i, 1)`.

The model follows the code, including these behaviours worth noting:
- The 404 messages are "Order not found: <id>" for orders and "Dish does not exist: <id>" for dishes.
- `"Order must include a dish"` is given for any falsy `dishes`, not only a missing one.
- The dish fields are checked in the order name, description, price, image_url.
- `create` stores any truthy `status` without checking it against the four valid statuses. `CreateKeepsUncheckedStatus` shows this, so the "status is one of four" invariant only holds for orders that went through an update.
- Several malformed bodies end in a TypeError (a 500 from the error handler) instead of a 400. They are a null `data` member, and a null element in `dishes` reached before any other bad element. The third is a mismatched body id that `String` cannot convert, such as an object with its own `toString` member. `DeliveredOrderCannotBeUpdated` states all three for a PUT on a delivered order, and `UnprintableIdScenario` in each controller states the last one.

## Model

| member | source | states |
|---|---|---|
| JsValues.Get | Downloads/Project-_GrubDash-_Qualified_-Node_18--Kirk_Wingo-Solution/src/orders/orders.controller.js:31-32 | `dish.quantity` throws exactly on null and undefined; an object yields its member, or undefined when it has none; every other value yields undefined |
| JsValues.Truthy | Downloads/Project-_GrubDash-_Qualified_-Node_18--Kirk_Wingo-Solution/src/orders/orders.controller.js:13 | `if (data[p])` takes its branch exactly for values outside undefined, null, false, 0 and "" |
| JsValues.Field | Downloads/Project-_GrubDash-_Qualified_-Node_18--Kirk_Wingo-Solution/src/orders/orders.controller.js:12-13 | destructuring `data` throws exactly when `data` is null; an absent `data` (default `{}`) or a non-object yields undefined |
| JsValues.Member | Downloads/Project-_GrubDash-_Qualified_-Node_18--Kirk_Wingo-Solution/src/orders/orders.controller.js:85-86 | the handlers' destructuring of a non-null `data` reads the same value the validators read |
| JsValues.Display | Downloads/Project-_GrubDash-_Qualified_-Node_18--Kirk_Wingo-Solution/src/orders/orders.controller.js:142 | the template literal `${id}` throws exactly for an object with its own `toString` member, or an array holding one at any depth; a string renders as itself and any other object as "[object Object]" |
| JsValues.NatToString | Downloads/Project-_GrubDash-_Qualified_-Node_18--Kirk_Wingo-Solution/src/orders/orders.controller.js:43 | the index in the quantity message is a non-empty run of decimal digits with no leading zero |
| JsValues.ParseNatToString | Downloads/Project-_GrubDash-_Qualified_-Node_18--Kirk_Wingo-Solution/src/orders/orders.controller.js:43 | reading the rendered index back as decimal gives the index |
| JsValues.NatToStringInjective | Downloads/Project-_GrubDash-_Qualified_-Node_18--Kirk_Wingo-Solution/src/orders/orders.controller.js:43 | distinct indices render differently |
| ArrayOps.Find | Downloads/Project-_GrubDash-_Qualified_-Node_18--Kirk_Wingo-Solution/src/orders/orders.controller.js:128 | `find` gives the first element satisfying the predicate, and nothing exactly when none does |
| ArrayOps.FindIndex | Downloads/Project-_GrubDash-_Qualified_-Node_18--Kirk_Wingo-Solution/src/orders/orders.controller.js:121 | the `findIndex` loop returns the first matching position, or -1 exactly when nothing matches |
| ArrayOps.RemoveAt | Downloads/Project-_GrubDash-_Qualified_-Node_18--Kirk_Wingo-Solution/src/orders/orders.controller.js:122 | `splice(index, 1)` shortens the list by one and keeps the other elements in their order |
| Middleware.Run | Downloads/Project-_GrubDash-_Qualified_-Node_18--Kirk_Wingo-Solution/src/orders/orders.controller.js:149-168 | the short-circuiting fold Express performs with `next`: an empty chain passes, and a chain none of whose middleware can fail passes |
| Middleware.RunAppend | Downloads/Project-_GrubDash-_Qualified_-Node_18--Kirk_Wingo-Solution/src/orders/orders.controller.js:149-168 | running two chains one after the other is the same as running their concatenation |
| Middleware.RunFirstFailure | Downloads/Project-_GrubDash-_Qualified_-Node_18--Kirk_Wingo-Solution/src/orders/orders.controller.js:149-168 | the first middleware that fails decides the chain's error, whatever follows it |
| Middleware.RunFailureHasCause | Downloads/Project-_GrubDash-_Qualified_-Node_18--Kirk_Wingo-Solution/src/orders/orders.controller.js:149-168 | every chain failure is the error of one middleware reached with all earlier ones passing |
| OrdersController.QuantityMessageNamesIndex | Downloads/Project-_GrubDash-_Qualified_-Node_18--Kirk_Wingo-Solution/src/orders/orders.controller.js:41-44 | the quantity message determines the index it names |
| OrdersController.BodyHas | Downloads/Project-_GrubDash-_Qualified_-Node_18--Kirk_Wingo-Solution/src/orders/orders.controller.js:10-16 | passes exactly when `data[field]` is truthy, so "", 0, null, false and a missing field all fail; otherwise 400 "Order must include a <field>" (a TypeError for a null `data`) |
| OrdersController.QuantityOk | Downloads/Project-_GrubDash-_Qualified_-Node_18--Kirk_Wingo-Solution/src/orders/orders.controller.js:32-39 | the five-way quantity test accepts exactly an object element whose own `quantity` is an integer greater than 0 |
| OrdersController.FirstBadQuantity | Downloads/Project-_GrubDash-_Qualified_-Node_18--Kirk_Wingo-Solution/src/orders/orders.controller.js:30-46 | the loop stops at the smallest position whose quantity is not a positive integer, and runs to the end exactly when there is none |
| OrdersController.DishesIsValid | Downloads/Project-_GrubDash-_Qualified_-Node_18--Kirk_Wingo-Solution/src/orders/orders.controller.js:18-48 | falsy dishes give "must include a dish"; a non-array or empty array gives "at least one dish"; otherwise it passes exactly when every quantity is a positive integer, and fails at the smallest offending index (a TypeError for a null element) |
| OrdersController.StatusIsValidForUpdate | Downloads/Project-_GrubDash-_Qualified_-Node_18--Kirk_Wingo-Solution/src/orders/orders.controller.js:51-73 | the missing-status, invalid-status and delivered errors apply in that order; it passes exactly for one of the four statuses on an order that is not delivered, with no forward-only ordering |
| OrdersController.OrderExists | Downloads/Project-_GrubDash-_Qualified_-Node_18--Kirk_Wingo-Solution/src/orders/orders.controller.js:126-134 | resolves the first order with the route id, and answers 404 "Order not found: <id>" exactly when there is none |
| OrdersController.IdMatches | Downloads/Project-_GrubDash-_Qualified_-Node_18--Kirk_Wingo-Solution/src/orders/orders.controller.js:136-146 | passes exactly when the body id is falsy or equals the route id; otherwise 400 naming both ids, or a TypeError for a null `data` or an id that `String` cannot convert |
| OrdersController.CreateChain | Downloads/Project-_GrubDash-_Qualified_-Node_18--Kirk_Wingo-Solution/src/orders/orders.controller.js:152-157 | the `create` array of `module.exports` without its final handler; what running it decides is CreateChainOutcome |
| OrdersController.ResolveChain | Downloads/Project-_GrubDash-_Qualified_-Node_18--Kirk_Wingo-Solution/src/orders/orders.controller.js:151 | the `[orderExists]` prefix of `read` and `delete`; what running it decides is ResolveChainOutcome |
| OrdersController.UpdateChain | Downloads/Project-_GrubDash-_Qualified_-Node_18--Kirk_Wingo-Solution/src/orders/orders.controller.js:158-166 | the `update` array of `module.exports` without its final handler; what running it decides is UpdateChainOutcome |
| OrdersController.CreateChainOutcome | Downloads/Project-_GrubDash-_Qualified_-Node_18--Kirk_Wingo-Solution/src/orders/orders.controller.js:152-157 | POST passes exactly when all three checks pass; the deliverTo error comes before the mobileNumber error, which comes before the dishes errors |
| OrdersController.ResolveChainOutcome | Downloads/Project-_GrubDash-_Qualified_-Node_18--Kirk_Wingo-Solution/src/orders/orders.controller.js:151 | the read and delete chains decide exactly what `orderExists` decides |
| OrdersController.UpdateChainOutcome | Downloads/Project-_GrubDash-_Qualified_-Node_18--Kirk_Wingo-Solution/src/orders/orders.controller.js:158-166 | PUT passes exactly when every check passes, keeping the resolved order; the order of precedence is 404, id mismatch, deliverTo, mobileNumber, dishes, then status |
| OrdersController.ReadOrder | Downloads/Project-_GrubDash-_Qualified_-Node_18--Kirk_Wingo-Solution/src/orders/orders.controller.js:80-82 | answers 200 with the first order having the route id, or 404 |
| OrdersController.NewOrder | Downloads/Project-_GrubDash-_Qualified_-Node_18--Kirk_Wingo-Solution/src/orders/orders.controller.js:88-94 | the new record takes the id from `nextId`, and its status is always truthy: "pending" when the submitted one is falsy |
| OrdersController.CreateOrder | Downloads/Project-_GrubDash-_Qualified_-Node_18--Kirk_Wingo-Solution/src/orders/orders.controller.js:84-98 | on success it appends exactly one order (201) with the new id and the submitted fields; the status is the submitted one when truthy, else "pending"; the length grows by one and earlier orders are unchanged; on failure the list is unchanged |
| OrdersController.Overwrite | Downloads/Project-_GrubDash-_Qualified_-Node_18--Kirk_Wingo-Solution/src/orders/orders.controller.js:105-108 | the four assignments never change the order's id |
| OrdersController.UpdateOrder | Downloads/Project-_GrubDash-_Qualified_-Node_18--Kirk_Wingo-Solution/src/orders/orders.controller.js:100-111 | on success it replaces deliverTo, mobileNumber, status and dishes of the resolved order and keeps its id; every other order and the length are unchanged, and the new status is one of the four; 404 for an unknown id; on failure the list is unchanged |
| OrdersController.DeleteOrder | Downloads/Project-_GrubDash-_Qualified_-Node_18--Kirk_Wingo-Solution/src/orders/orders.controller.js:113-124 | 404 for an unknown id; 400 with the list unchanged unless the order's status is exactly "pending"; otherwise 204, and that order is removed with the others kept in order |
| OrdersController.DeliveredOrderCannotBeUpdated | Downloads/Project-_GrubDash-_Qualified_-Node_18--Kirk_Wingo-Solution/src/orders/orders.controller.js:67-70 | a PUT on a delivered order always fails and never changes the list, and every rejection is a 400. A body that passes every other check gets "A delivered order cannot be changed". A null `data`, an unconvertible mismatched id, or a null element reached first in `dishes` gives a TypeError |
| OrdersController.DeliveredOrderStays | Downloads/Project-_GrubDash-_Qualified_-Node_18--Kirk_Wingo-Solution/src/orders/orders.controller.js:100-124 | no route changes or removes a delivered order: it keeps its position, unless a delete removed another order, in which case the list is exactly that removal |
| OrdersController.DeliveredOrderStaysForever | Downloads/Project-_GrubDash-_Qualified_-Node_18--Kirk_Wingo-Solution/src/orders/orders.controller.js:149-168 | a delivered order survives unchanged through any sequence of requests |
| OrdersController.UniqueIdsPreserved | Downloads/Project-_GrubDash-_Qualified_-Node_18--Kirk_Wingo-Solution/src/orders/orders.controller.js:88-96 | order ids stay unique under every route, given that `nextId` returns an id not in use |
| OrdersController.DeletedOrderIsGone | Downloads/Project-_GrubDash-_Qualified_-Node_18--Kirk_Wingo-Solution/src/orders/orders.controller.js:121-123 | after a successful delete no order with that id remains and the length has dropped by one |
| OrdersController.WellFormedPreserved | Downloads/Project-_GrubDash-_Qualified_-Node_18--Kirk_Wingo-Solution/src/orders/orders.controller.js:152-166 | every route keeps truthy deliverTo and mobileNumber and a non-empty dishes array of positive quantities on every order |
| OrdersController.CreateKeepsUncheckedStatus | Downloads/Project-_GrubDash-_Qualified_-Node_18--Kirk_Wingo-Solution/src/orders/orders.controller.js:92 | create accepts and stores a status outside the four valid ones |
| OrdersController.IdMismatchScenario | Downloads/Project-_GrubDash-_Qualified_-Node_18--Kirk_Wingo-Solution/src/orders/orders.controller.js:139-143 | PUT /orders/42 with body id "99" fails with "Order id does not match route id. Order: 99, Route: 42", whatever the other fields are |
| OrdersController.UnprintableIdScenario | Downloads/Project-_GrubDash-_Qualified_-Node_18--Kirk_Wingo-Solution/src/orders/orders.controller.js:139-143 | PUT /orders/42 with body id `{"toString": 1}` ends in a TypeError, whatever the other fields are, and leaves the list unchanged |
| OrdersController.EmptyDishesScenario | Downloads/Project-_GrubDash-_Qualified_-Node_18--Kirk_Wingo-Solution/src/orders/orders.controller.js:23-28 | POST with `dishes: []` fails with "Order must include at least one dish" and adds nothing |
| OrdersController.OrderStore.constructor | Downloads/Project-_GrubDash-_Qualified_-Node_18--Kirk_Wingo-Solution/src/orders/orders.controller.js:4 | the list starts as the seed data |
| OrdersController.OrderStore.List | Downloads/Project-_GrubDash-_Qualified_-Node_18--Kirk_Wingo-Solution/src/orders/orders.controller.js:76-78 | answers 200 with the whole current list |
| OrdersController.OrderStore.Read | Downloads/Project-_GrubDash-_Qualified_-Node_18--Kirk_Wingo-Solution/src/orders/orders.controller.js:80-82 | runs `[orderExists, read]` as ReadOrder states, without changing the list |
| OrdersController.OrderStore.Create | Downloads/Project-_GrubDash-_Qualified_-Node_18--Kirk_Wingo-Solution/src/orders/orders.controller.js:84-98 | pushes onto the list exactly as CreateOrder states, and keeps ids unique |
| OrdersController.OrderStore.Update | Downloads/Project-_GrubDash-_Qualified_-Node_18--Kirk_Wingo-Solution/src/orders/orders.controller.js:100-111 | overwrites the resolved order in place exactly as UpdateOrder states, and keeps ids unique |
| OrdersController.OrderStore.Destroy | Downloads/Project-_GrubDash-_Qualified_-Node_18--Kirk_Wingo-Solution/src/orders/orders.controller.js:113-124 | uses `findIndex` and `splice` to remove the order exactly as DeleteOrder states, and keeps ids unique |
| DishesController.BodyHas | Downloads/Project-_GrubDash-_Qualified_-Node_18--Kirk_Wingo-Solution/src/dishes/dishes.controller.js:10-18 | passes exactly when `data[field]` is truthy; otherwise 400 "Dish must include a <field>" (a TypeError for a null `data`) |
| DishesController.PriceIsValid | Downloads/Project-_GrubDash-_Qualified_-Node_18--Kirk_Wingo-Solution/src/dishes/dishes.controller.js:20-32 | an undefined price gives "Dish must include a price"; any other value that is not a positive integer, null included, gives the integer message; it passes exactly for positive integers |
| DishesController.DishExists | Downloads/Project-_GrubDash-_Qualified_-Node_18--Kirk_Wingo-Solution/src/dishes/dishes.controller.js:35-43 | resolves the first dish with the route id, and answers 404 "Dish does not exist: <id>" exactly when there is none |
| DishesController.IdMatches | Downloads/Project-_GrubDash-_Qualified_-Node_18--Kirk_Wingo-Solution/src/dishes/dishes.controller.js:69-80 | passes exactly when the body id is falsy or equals the route id; otherwise 400 "Dish id does not match route id. Dish: <id>, Route: <dishId>", or a TypeError for a null `data` or an id that `String` cannot convert |
| DishesController.CreateChain | Downloads/Project-_GrubDash-_Qualified_-Node_18--Kirk_Wingo-Solution/src/dishes/dishes.controller.js:100-106 | the `create` array of `module.exports` without its final handler; what running it decides is CreateChainOutcome |
| DishesController.ResolveChain | Downloads/Project-_GrubDash-_Qualified_-Node_18--Kirk_Wingo-Solution/src/dishes/dishes.controller.js:99 | the `[dishExists]` prefix of `read`; what running it decides is ResolveChainOutcome |
| DishesController.UpdateChain | Downloads/Project-_GrubDash-_Qualified_-Node_18--Kirk_Wingo-Solution/src/dishes/dishes.controller.js:107-115 | the `update` array of `module.exports` without its final handler; what running it decides is UpdateChainOutcome |
| DishesController.FieldsFailure | Downloads/Project-_GrubDash-_Qualified_-Node_18--Kirk_Wingo-Solution/src/dishes/dishes.controller.js:100-106 | the field checks report nothing exactly when all dish fields are acceptable |
| DishesController.CreateChainOutcome | Downloads/Project-_GrubDash-_Qualified_-Node_18--Kirk_Wingo-Solution/src/dishes/dishes.controller.js:100-106 | POST passes exactly when all fields are acceptable, and otherwise reports the first failing field in the order name, description, price, image_url |
| DishesController.ResolveChainOutcome | Downloads/Project-_GrubDash-_Qualified_-Node_18--Kirk_Wingo-Solution/src/dishes/dishes.controller.js:99 | the read chain decides exactly what `dishExists` decides |
| DishesController.UpdateChainOutcome | Downloads/Project-_GrubDash-_Qualified_-Node_18--Kirk_Wingo-Solution/src/dishes/dishes.controller.js:107-115 | PUT passes exactly when every check passes, keeping the resolved dish; the order of precedence is 404, id mismatch, then the field errors in create order |
| DishesController.ReadDish | Downloads/Project-_GrubDash-_Qualified_-Node_18--Kirk_Wingo-Solution/src/dishes/dishes.controller.js:49-51 | answers 200 with the first dish having the route id, or 404 |
| DishesController.NewDish | Downloads/Project-_GrubDash-_Qualified_-Node_18--Kirk_Wingo-Solution/src/dishes/dishes.controller.js:57-63 | the new record takes the id from `nextId` |
| DishesController.CreateDish | Downloads/Project-_GrubDash-_Qualified_-Node_18--Kirk_Wingo-Solution/src/dishes/dishes.controller.js:53-67 | on success it appends exactly one dish (201) with the new id and the submitted name, description, price and image_url; the length grows by one and earlier dishes are unchanged; on failure the list is unchanged and the error is the first failing field's |
| DishesController.Overwrite | Downloads/Project-_GrubDash-_Qualified_-Node_18--Kirk_Wingo-Solution/src/dishes/dishes.controller.js:88-91 | the four assignments never change the dish's id |
| DishesController.UpdateDish | Downloads/Project-_GrubDash-_Qualified_-Node_18--Kirk_Wingo-Solution/src/dishes/dishes.controller.js:82-94 | on success it replaces name, description, price and image_url of the resolved dish and keeps its id; every other dish and the length are unchanged; 404 for an unknown id; on failure the list is unchanged |
| DishesController.DishesStayInPlace | Downloads/Project-_GrubDash-_Qualified_-Node_18--Kirk_Wingo-Solution/src/dishes/dishes.controller.js:97-116 | no route shortens the list or moves a dish: every position keeps its id |
| DishesController.DishesNeverShrink | Downloads/Project-_GrubDash-_Qualified_-Node_18--Kirk_Wingo-Solution/src/dishes/dishes.controller.js:97-116 | across any sequence of requests the dish list never shrinks and every dish keeps its position and id |
| DishesController.ValidDishesPreserved | Downloads/Project-_GrubDash-_Qualified_-Node_18--Kirk_Wingo-Solution/src/dishes/dishes.controller.js:100-115 | every route keeps every dish with truthy name, description and image_url and a positive integer price |
| DishesController.UniqueIdsPreserved | Downloads/Project-_GrubDash-_Qualified_-Node_18--Kirk_Wingo-Solution/src/dishes/dishes.controller.js:57-65 | dish ids stay unique under every route, given that `nextId` returns an id not in use |
| DishesController.BadPriceNeverCreated | Downloads/Project-_GrubDash-_Qualified_-Node_18--Kirk_Wingo-Solution/src/dishes/dishes.controller.js:20-32 | a dish whose price is not a positive integer is never created and the length is unchanged; with a valid name and description, the error is the price error |
| DishesController.TacoScenario | Downloads/Project-_GrubDash-_Qualified_-Node_18--Kirk_Wingo-Solution/src/dishes/dishes.controller.js:53-67 | POST of Taco/spicy/5/x answers 201 with a dish of price 5 under a new non-empty id, appended to the list |
| DishesController.UnprintableIdScenario | Downloads/Project-_GrubDash-_Qualified_-Node_18--Kirk_Wingo-Solution/src/dishes/dishes.controller.js:73-77 | PUT with a mismatched body id `{"toString": 1}` on an existing dish ends in a TypeError and leaves the list unchanged |
| DishesController.DishStore.constructor | Downloads/Project-_GrubDash-_Qualified_-Node_18--Kirk_Wingo-Solution/src/dishes/dishes.controller.js:4 | the list starts as the seed data |
| DishesController.DishStore.List | Downloads/Project-_GrubDash-_Qualified_-Node_18--Kirk_Wingo-Solution/src/dishes/dishes.controller.js:45-47 | answers 200 with the whole current list |
| DishesController.DishStore.Read | Downloads/Project-_GrubDash-_Qualified_-Node_18--Kirk_Wingo-Solution/src/dishes/dishes.controller.js:49-51 | runs `[dishExists, read]` as ReadDish states, without changing the list |
| DishesController.DishStore.Create | Downloads/Project-_GrubDash-_Qualified_-Node_18--Kirk_Wingo-Solution/src/dishes/dishes.controller.js:53-67 | pushes onto the list exactly as CreateDish states, and keeps ids unique |
| DishesController.DishStore.Update | Downloads/Project-_GrubDash-_Qualified_-Node_18--Kirk_Wingo-Solution/src/dishes/dishes.controller.js:82-94 | overwrites the resolved dish in place exactly as UpdateDish states, and keeps ids unique |

## Left out

- Route wiring in `dishes.router.js` and the 405 answer of `methodNotAllowed`: Express plumbing with no logic of its own. The orders router is not part of this model.
- `nextId` (`src/utils/nextId`) is not part of this model. Its result is a parameter of every create, and the store methods require that it is not an id already in use.
- The seed data (`src/data/*-data`) is not part of this model. The stores start from an arbitrary list, with unique ids in the class constructors.
- HTTP mechanics (`res.json`, `res.status`, `res.sendStatus`, JSON body parsing): routes return a status code with the record, or the failure object. The model takes the body's `data` member as given, with `Undefined` when it is absent. `req.body || {}` on a missing body gives that same case.
- The application's error handler: a TypeError that JavaScript throws is returned as `Thrown`. The 500 response that the error handler makes of it is outside these files.
- Floating point: a non-integer number is an abstract value that is never an integer. This includes `Infinity` and `-Infinity`, which a JSON literal beyond the double range such as `1e400` parses to. Its text is kept only for messages, and no IEEE arithmetic is done. `Num(n)` is an exact integer, so the loss of precision beyond 2^53 is not modelled.
- Display: integers of 10^21 and more are rendered in plain decimal, where JavaScript uses exponent notation. This only affects the id-mismatch messages.
- Property reads: reads of built-in properties of primitives and arrays, such as `length`, are not modelled. None of the keys the controllers read names one.
- Object identity: `list`, `read` and `update` return the stored objects themselves. The model returns their values, and since each response is serialised at once, the two cannot be told apart.
- Concurrency: there is none. Each request runs to completion before the next.
