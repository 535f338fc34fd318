/** The order ledger (`src/orders/orders.service.ts`). An order carries two
    independent flags, `isProcessed` and `isCanceled`, both false at
    creation. `cancel` and `process` are guarded transitions that each set
    one flag; `cancel` also checks that the acting user owns the order or is
    an admin. The pure functions below decide each operation over the order
    table; `OrderLedger` is the service, whose methods change the table in
    place and are proved to follow those functions. */
module Orders {
  import opened Common
  import opened Users
  import AdminCheck
  import Products

  datatype Order = Order(id: Id, user: User, products: set<Products.Product>,
                         isProcessed: bool, isCanceled: bool)

  type Store = map<Id, Order>

  /** What one call answers, and the order table after it. */
  datatype Step = Step(result: Result<Order>, store: Store)

  const ProductsNotFound := "Products with provided ids have not been found"
  const OrderNotFound := "Order with provided id has not been found"
  const AlreadyCanceled := "Order is already canceled"
  const AlreadyProcessed := "Order is already processed"
  const OrderCanceled := "Order is canceled"

  /** Every order is stored under its own primary key. */
  ghost predicate Keyed(store: Store)
  {
    forall id :: id in store ==> store[id].id == id
  }

  /** `findById`: the order with that id, or null. */
  function FindById(store: Store, id: Id): (r: Option<Order>)
    ensures r.Some? <==> id in store
    ensures r.Some? ==> r.value == store[id]
  {
    if id in store then Some(store[id]) else None
  }

  /** `findByIdOrFail`: the stored order, or a 400 naming the missing order. */
  function FindByIdOrFail(store: Store, id: Id): (r: Result<Order>)
    ensures id in store ==> r == Ok(store[id])
    ensures id !in store ==> r == Err(BadRequest(OrderNotFound))
  {
    match FindById(store, id)
    case Some(order) => Ok(order)
    case None => Err(BadRequest(OrderNotFound))
  }

  /** `findAllByUser`: the orders whose owner has the caller's id. */
  function FindAllByUser(store: Store, user: User): (found: set<Order>)
    ensures forall o :: o in found <==> o in store.Values && o.user.id == user.id
  {
    set id | id in store && store[id].user.id == user.id :: store[id]
  }

  /** `create` once the product ids are resolved: an empty resolution is
      refused and stores nothing; otherwise the new order holds exactly the
      resolved products, belongs to the caller, and has both flags false. */
  function CreateStep(store: Store, found: set<Products.Product>, user: User, newId: Id): (s: Step)
    requires newId !in store
    ensures found == {} ==> s == Step(Err(BadRequest(ProductsNotFound)), store)
    ensures found != {} ==>
      s.result == Ok(Order(newId, user, found, false, false)) &&
      s.store == store[newId := s.result.value]
  {
    if found == {} then Step(Err(BadRequest(ProductsNotFound)), store)
    else
      var order := Order(newId, user, found, false, false);
      Step(Ok(order), store[newId := order])
  }

  /** The ownership check of `cancel`: no acting user, an admin, or the
      owner (compared by id). */
  predicate MayCancel(order: Order, actor: Option<User>)
  {
    actor.None? || AdminCheck.IsAdmin(actor.value) || order.user.id == actor.value.id
  }

  /** `cancel` on a found order: the ownership check comes first, then the
      already-canceled check; `isProcessed` is never looked at. */
  function CancelOrder(order: Order, actor: Option<User>): (r: Result<Order>)
    ensures !MayCancel(order, actor) ==> r == Err(Forbidden)
    ensures MayCancel(order, actor) && order.isCanceled ==> r == Err(BadRequest(AlreadyCanceled))
    ensures MayCancel(order, actor) && !order.isCanceled ==> r == Ok(order.(isCanceled := true))
  {
    if actor.Some? && !AdminCheck.IsAdmin(actor.value) && order.user.id != actor.value.id then
      Err(Forbidden)
    else if order.isCanceled then
      Err(BadRequest(AlreadyCanceled))
    else
      Ok(order.(isCanceled := true))
  }

  /** `process` on a found order: already processed is reported first (so an
      order with both flags set reports that), then canceled. */
  function ProcessOrder(order: Order): (r: Result<Order>)
    ensures order.isProcessed ==> r == Err(BadRequest(AlreadyProcessed))
    ensures !order.isProcessed && order.isCanceled ==> r == Err(BadRequest(OrderCanceled))
    ensures !order.isProcessed && !order.isCanceled ==> r == Ok(order.(isProcessed := true))
  {
    if order.isProcessed then Err(BadRequest(AlreadyProcessed))
    else if order.isCanceled then Err(BadRequest(OrderCanceled))
    else Ok(order.(isProcessed := true))
  }

  /** `cancel(id, user?)` over the table: a failure changes nothing; a
      success rewrites only that order, and the re-read order is returned. */
  function CancelStep(store: Store, id: Id, actor: Option<User>): (s: Step)
    ensures id !in store ==> s == Step(Err(BadRequest(OrderNotFound)), store)
    ensures id in store ==> s.result == CancelOrder(store[id], actor)
    ensures s.result.Err? ==> s.store == store
    ensures s.result.Ok? ==> s.store == store[id := s.result.value]
  {
    match FindByIdOrFail(store, id)
    case Err(e) => Step(Err(e), store)
    case Ok(order) =>
      var r := CancelOrder(order, actor);
      if r.Ok? then Step(r, store[id := r.value]) else Step(r, store)
  }

  /** `process(id)` over the table, with the same shape as `CancelStep`. */
  function ProcessStep(store: Store, id: Id): (s: Step)
    ensures id !in store ==> s == Step(Err(BadRequest(OrderNotFound)), store)
    ensures id in store ==> s.result == ProcessOrder(store[id])
    ensures s.result.Err? ==> s.store == store
    ensures s.result.Ok? ==> s.store == store[id := s.result.value]
  {
    match FindByIdOrFail(store, id)
    case Err(e) => Step(Err(e), store)
    case Ok(order) =>
      var r := ProcessOrder(order);
      if r.Ok? then Step(r, store[id := r.value]) else Step(r, store)
  }

  /** The table after `delete(id)`; `storeFails` stands for the repository's
      `delete` rejecting, in which case nothing is removed. */
  function AfterDelete(store: Store, id: Id, storeFails: bool): (after: Store)
    ensures storeFails ==> after == store
    ensures !storeFails ==> id !in after && after.Keys == store.Keys - {id}
    ensures forall k :: k in after ==> k in store && after[k] == store[k]
  {
    if storeFails then store else store - {id}
  }

  /** Each transition keeps every order under its own key. */
  lemma StepsKeepKeyed(store: Store, id: Id, actor: Option<User>)
    requires Keyed(store)
    ensures Keyed(CancelStep(store, id, actor).store)
    ensures Keyed(ProcessStep(store, id).store)
  {
  }

  /** Cancel does not depend on `isProcessed`: flipping that flag changes
      neither the decision nor anything else in the answer. */
  lemma CancelIgnoresProcessed(order: Order, actor: Option<User>, processed: bool)
    ensures var r := CancelOrder(order, actor);
      var r' := CancelOrder(order.(isProcessed := processed), actor);
      r.Err? == r'.Err? &&
      (r.Err? ==> r.error == r'.error) &&
      (r.Ok? ==> r'.value == r.value.(isProcessed := processed))
  {
  }

  /** Without an acting user the ownership check is skipped, so the only
      possible refusals are a missing order and an already-canceled one. */
  lemma CancelWithoutActorNeverForbidden(store: Store, id: Id)
    ensures CancelStep(store, id, None).result != Err(Forbidden)
  {
  }

  /** `create` from a list of product ids succeeds exactly when at least one
      id is in the catalog, and the order then holds every listed product
      that exists and nothing else. */
  lemma CreateSucceedsIffSomeIdResolves(catalog: Products.Store, store: Store,
                                        ids: seq<Id>, user: User, newId: Id)
    requires Products.Keyed(catalog) && newId !in store
    ensures var s := CreateStep(store, Products.FindByIds(catalog, ids), user, newId);
      (s.result.Ok? <==> exists i :: 0 <= i < |ids| && ids[i] in catalog) &&
      (s.result.Ok? ==>
        (forall p: Products.Product :: p in s.result.value.products <==> p.id in ids && p.id in catalog && catalog[p.id] == p))
  {
  }

  class OrderLedger {
    var orders: Store
    const catalog: Products.ProductsService

    ghost predicate Valid()
      reads this
    {
      Keyed(orders)
    }

    constructor (catalog: Products.ProductsService)
      ensures Valid() && orders == map[] && this.catalog == catalog
    {
      orders := map[];
      this.catalog := catalog;
    }

    /** `create`: resolves the ids through the catalog, then saves the order
        under the id the database generates (`newId`). */
    method Create(productIds: seq<Id>, user: User, newId: Id) returns (r: Result<Order>)
      requires Valid() && catalog.Valid() && newId !in orders
      modifies this
      ensures Valid()
      ensures var s := CreateStep(old(orders), Products.FindByIds(catalog.products, productIds), user, newId);
        r == s.result && orders == s.store
    {
      var products := Products.FindByIds(catalog.products, productIds);
      if products == {} {
        return Err(BadRequest(ProductsNotFound));
      }
      var order := Order(newId, user, products, false, false);
      orders := orders[newId := order];
      r := Ok(order);
    }

    /** `cancel(id, user?)`. */
    method Cancel(id: Id, actor: Option<User>) returns (r: Result<Order>)
      requires Valid()
      modifies this
      ensures Valid()
      ensures var s := CancelStep(old(orders), id, actor); r == s.result && orders == s.store
      ensures r.Ok? ==> r.value.id == id
    {
      var found := FindByIdOrFail(orders, id);
      if found.Err? {
        return Err(found.error);
      }
      var order := found.value;
      if actor.Some? && !AdminCheck.IsAdmin(actor.value) && order.user.id != actor.value.id {
        return Err(Forbidden);
      }
      if order.isCanceled {
        return Err(BadRequest(AlreadyCanceled));
      }
      orders := orders[id := order.(isCanceled := true)];
      var reread := FindById(orders, id);
      r := Ok(reread.value);
    }

    /** `process(id)`: no ownership check (the route admits admins only). */
    method Process(id: Id) returns (r: Result<Order>)
      requires Valid()
      modifies this
      ensures Valid()
      ensures var s := ProcessStep(old(orders), id); r == s.result && orders == s.store
      ensures r.Ok? ==> r.value.id == id
    {
      var found := FindByIdOrFail(orders, id);
      if found.Err? {
        return Err(found.error);
      }
      var order := found.value;
      if order.isProcessed {
        return Err(BadRequest(AlreadyProcessed));
      }
      if order.isCanceled {
        return Err(BadRequest(OrderCanceled));
      }
      orders := orders[id := order.(isProcessed := true)];
      var reread := FindById(orders, id);
      r := Ok(reread.value);
    }

    /** `delete(id)`: a rejected repository delete becomes `false`, never an
        error. */
    method Delete(id: Id, storeFails: bool) returns (deleted: bool)
      requires Valid()
      modifies this
      ensures Valid()
      ensures deleted == !storeFails
      ensures orders == AfterDelete(old(orders), id, storeFails)
    {
      if storeFails {
        return false;
      }
      orders := orders - {id};
      return true;
    }
  }
}
