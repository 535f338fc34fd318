/** What the order ledger guarantees over any sequence of calls. Traces are
    made of `cancel`, `process` and `delete` calls on existing orders; a
    `create` only adds a fresh id and is specified on its own. */
module OrderLifecycle {
  import opened Common
  import opened Users
  import opened Orders
  import RolesGuard

  datatype Call =
    | CancelCall(id: Id, actor: Option<User>)
    | ProcessCall(id: Id)
    | DeleteCall(id: Id, storeFails: bool)

  function Apply(store: Store, call: Call): (after: Store)
    ensures after.Keys <= store.Keys
  {
    match call
    case CancelCall(id, actor) => CancelStep(store, id, actor).store
    case ProcessCall(id) => ProcessStep(store, id).store
    case DeleteCall(id, fails) => AfterDelete(store, id, fails)
  }

  /** The order table after the calls, made one after the other. */
  function Run(store: Store, calls: seq<Call>): (after: Store)
    decreases |calls|
  {
    if calls == [] then store else Run(Apply(store, calls[0]), calls[1..])
  }

  /** How one order may change between two moments: its id, owner and
      products are fixed, neither flag is ever cleared, and an order canceled
      before it was processed can never become processed. */
  ghost predicate Evolves(before: Order, after: Order)
  {
    && after.id == before.id
    && after.user == before.user
    && after.products == before.products
    && (before.isCanceled ==> after.isCanceled)
    && (before.isProcessed ==> after.isProcessed)
    && (before.isCanceled && !before.isProcessed ==> !after.isProcessed)
  }

  lemma ApplyEvolves(store: Store, call: Call, id: Id)
    requires id in store && id in Apply(store, call)
    ensures Evolves(store[id], Apply(store, call)[id])
  {
  }

  /** No call of a trace brings an order (back) into the table. */
  lemma {:induction false} RunNeverAddsOrders(store: Store, calls: seq<Call>)
    ensures Run(store, calls).Keys <= store.Keys
    decreases |calls|
  {
    if calls != [] {
      RunNeverAddsOrders(Apply(store, calls[0]), calls[1..]);
    }
  }

  /** The lifecycle invariant holds across any trace, for every order that
      is still in the table at its end. */
  lemma {:induction false} RunEvolves(store: Store, calls: seq<Call>, id: Id)
    requires id in store && id in Run(store, calls)
    ensures Evolves(store[id], Run(store, calls)[id])
    decreases |calls|
  {
    if calls != [] {
      var next := Apply(store, calls[0]);
      RunNeverAddsOrders(next, calls[1..]);
      ApplyEvolves(store, calls[0], id);
      RunEvolves(next, calls[1..], id);
    }
  }

  /** A trace keeps every order under its own key. */
  lemma {:induction false} RunKeepsKeyed(store: Store, calls: seq<Call>)
    requires Keyed(store)
    ensures Keyed(Run(store, calls))
    decreases |calls|
  {
    if calls != [] {
      var next := Apply(store, calls[0]);
      match calls[0] {
        case CancelCall(id, actor) => StepsKeepKeyed(store, id, actor);
        case ProcessCall(id) => StepsKeepKeyed(store, id, None);
        case DeleteCall(_, _) =>
      }
      RunKeepsKeyed(next, calls[1..]);
    }
  }

  /** Canceled and processed are not both terminal: `cancel` never looks at
      `isProcessed`, so a processed order can still be canceled and then
      carries both flags. */
  lemma ProcessedOrderCanStillBeCanceled(store: Store, id: Id)
    requires id in store && !store[id].isProcessed && !store[id].isCanceled
    ensures var after := Run(store, [ProcessCall(id), CancelCall(id, None)]);
      id in after && after[id].isProcessed && after[id].isCanceled
  {
    var mid := Apply(store, ProcessCall(id));
    assert mid == store[id := store[id].(isProcessed := true)];
    var last := Apply(mid, CancelCall(id, None));
    assert last == mid[id := mid[id].(isCanceled := true)];
    assert Run(store, [ProcessCall(id), CancelCall(id, None)]) == Run(mid, [CancelCall(id, None)]);
    assert Run(mid, [CancelCall(id, None)]) == Run(last, []);
  }

  /** The cancel route admits any caller holding the User role, yet the
      ledger still refuses such a caller who does not own the order: the
      ownership check lives in the service, not in the guard. */
  lemma NonOwnerPassesGuardButIsForbidden(store: Store, id: Id, caller: User)
    requires id in store && caller.roles == [Role.User] && store[id].user.id != caller.id
    ensures RolesGuard.Authorize(RolesGuard.UserRoute, caller.roles)
    ensures CancelStep(store, id, Some(caller)) == Step(Err(Forbidden), store)
  {
  }
}
