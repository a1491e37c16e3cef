/**
 * The business store: the catalogue, the active and completed orders, the
 * notification feed and the audit trail of one shop, and the actions the
 * terminals call on it.  Each order action is proved to change the ledger as
 * the matching transition of the Orders module does, so what Reconciliation
 * proves about those transitions holds of the store.
 */
module Business {
  import opened Wrappers
  import Keyed
  import Text
  import Clock
  import Cart
  import opened Orders
  import opened Journal
  import Reports

  datatype BusinessType = LiquorStore | BarRestaurant | Wholesale

  /** The catalogue a new store starts with. */
  function DefaultProducts(): (ps: seq<Product>)
    ensures |ps| == 6
    ensures forall i, k :: 0 <= i < k < |ps| ==> ps[i].id != ps[k].id
  {
    [ Product("L1", "Johnnie Walker Black 750ml", 4200, "Whiskey", 24, "750ml", None),
      Product("L2", "Gilbeys Gin 750ml", 1450, "Gin", 112, "750ml", None),
      Product("L3", "Tusker Lager 500ml", 230, "Beer", 450, "500ml", Some("Returnable")),
      Product("L4", "White Cap 500ml", 240, "Beer", 320, "500ml", Some("Returnable")),
      Product("L5", "Hennessy VS 700ml", 6800, "Cognac", 12, "700ml", None),
      Product("M1", "Coca Cola 1.25L", 140, "Mixers", 80, "1.25L", None) ]
  }

  /** `product?.name` inside a template string: the first match's name, or `undefined`. */
  function NameOf(ps: seq<Product>, id: string): (name: string)
    ensures (forall i :: 0 <= i < |ps| ==> ps[i].id != id) ==> name == "undefined"
    ensures (exists i :: 0 <= i < |ps| && ps[i].id == id) ==>
      exists i :: 0 <= i < |ps| && ps[i].id == id && name == ps[i].name &&
        forall k :: 0 <= k < i ==> ps[k].id != id
  {
    match Keyed.Find(ps, ProductId, id)
    case Some(i) => ps[i].name
    case None => "undefined"
  }

  /** Catalogues that agree on ids and names name every product alike; stock updates keep names. */
  lemma NameOfAgree(a: seq<Product>, b: seq<Product>, id: string)
    requires |a| == |b|
    requires forall i :: 0 <= i < |a| ==> a[i].id == b[i].id && a[i].name == b[i].name
    ensures NameOf(a, id) == NameOf(b, id)
  {
    Keyed.FindAgree(a, ProductId, b, ProductId, id);
  }

  /** Putting stock back never changes the name a message shows. */
  lemma RestoredKeepsNames(ps: seq<Product>, items: seq<Cart.CartItem>, id: string)
    ensures NameOf(Restored(ps, items), id) == NameOf(ps, id)
  {
    NameOfAgree(Restored(ps, items), ps, id);
  }

  /** One more line of the void path: one more MANUAL update, note and audit, named from the original catalogue. */
  lemma RestockStep(notes: seq<Notification>, log: seq<AuditEntry>, ps: seq<Product>, items: seq<Cart.CartItem>,
                    k: nat, now: Clock.Instant)
    requires k < |items|
    ensures Restored(ps, items[..k + 1]) == Restocked(Restored(ps, items[..k]), items[k].id, items[k].quantity, Manual)
    ensures RestockNotes(notes, ps, items[..k + 1], "SYSTEM_VOID", now)
         == Pushed(RestockNotes(notes, ps, items[..k], "SYSTEM_VOID", now),
                   ManualNote(Restored(ps, items[..k + 1]), "SYSTEM_VOID", items[k].id, items[k].quantity, now), NotificationCap)
    ensures RestockAudits(log, ps, items[..k + 1], "SYSTEM_VOID", now)
         == Pushed(RestockAudits(log, ps, items[..k], "SYSTEM_VOID", now),
                   ManualAudit(Restored(ps, items[..k + 1]), "SYSTEM_VOID", items[k].id, items[k].quantity, now), AuditCap)
  {
    assert items[..k + 1][..k] == items[..k];
    RestoredKeepsNames(ps, items[..k + 1], items[k].id);
  }

  /** The text of a MANUAL stock update's notification. */
  function ManualMessage(ps: seq<Product>, initiator: string, id: string, quantity: int): string {
    initiator + " updated " + NameOf(ps, id) + " stock by " + Text.IntText(quantity) + "."
  }

  /** The details of a MANUAL stock update's audit entry. */
  function ManualDetail(ps: seq<Product>, id: string, quantity: int): Detail {
    Plain("Updated " + NameOf(ps, id) + " by " + Text.IntText(quantity))
  }

  /** The notification a MANUAL stock update posts. */
  function ManualNote(ps: seq<Product>, initiator: string, id: string, quantity: int, now: Clock.Instant): (n: Notification)
    ensures n.kind == StockAdd && !n.read && n.title == "Stock Updated"
    ensures n.message == ManualMessage(ps, initiator, id, quantity)
  {
    NewNotification("Stock Updated", ManualMessage(ps, initiator, id, quantity), StockAdd, now)
  }

  /** The audit entry a MANUAL stock update records. */
  function ManualAudit(ps: seq<Product>, initiator: string, id: string, quantity: int, now: Clock.Instant): (a: AuditEntry)
    ensures a.userId == "ADMIN" && a.userName == initiator && a.action == "MANUAL_STOCK_UPDATE"
    ensures a.details == ManualDetail(ps, id, quantity)
  {
    NewAudit("ADMIN", initiator, "MANUAL_STOCK_UPDATE", ManualDetail(ps, id, quantity), now)
  }

  /** The feed after one MANUAL update per line, in line order, naming products from `ps`. */
  function RestockNotes(notes: seq<Notification>, ps: seq<Product>, items: seq<Cart.CartItem>,
                        initiator: string, now: Clock.Instant): (r: seq<Notification>)
    ensures |notes| <= NotificationCap ==>
      |r| == if |notes| + |items| <= NotificationCap then |notes| + |items| else NotificationCap
    ensures items != [] ==>
      |r| >= 1 && r[0] == ManualNote(ps, initiator, items[|items| - 1].id, items[|items| - 1].quantity, now)
  {
    if items == [] then notes
    else
      var last := items[|items| - 1];
      Pushed(RestockNotes(notes, ps, items[..|items| - 1], initiator, now),
             ManualNote(ps, initiator, last.id, last.quantity, now), NotificationCap)
  }

  /** The audit trail after one MANUAL update per line, in line order. */
  function RestockAudits(log: seq<AuditEntry>, ps: seq<Product>, items: seq<Cart.CartItem>,
                         initiator: string, now: Clock.Instant): (r: seq<AuditEntry>)
    ensures |log| <= AuditCap ==>
      |r| == if |log| + |items| <= AuditCap then |log| + |items| else AuditCap
    ensures items != [] ==>
      |r| >= 1 && r[0] == ManualAudit(ps, initiator, items[|items| - 1].id, items[|items| - 1].quantity, now)
  {
    if items == [] then log
    else
      var last := items[|items| - 1];
      Pushed(RestockAudits(log, ps, items[..|items| - 1], initiator, now),
             ManualAudit(ps, initiator, last.id, last.quantity, now), AuditCap)
  }

  /** The active order an action on `id` finds, if any. */
  function TargetOrder(l: Ledger, id: string): (r: Option<Order>)
    ensures r.Some? <==> exists i :: 0 <= i < |l.active| && l.active[i].id == id
    ensures r.Some? ==> r.value in l.active && r.value.id == id
    ensures r.Some? ==> exists j :: 0 <= j < |l.active| && l.active[j] == r.value && (forall k :: 0 <= k < j ==> l.active[k].id != id)
  {
    match Target(l, id)
    case Some(j) => Some(l.active[j])
    case None => None
  }

  /** The details of `dispatchOrder`'s audit entry. */
  function DispatchDetail(orderId: string): Detail {
    Plain("Dispatched order " + orderId + " - Stock reduced.")
  }

  /** The audit entry `dispatchOrder` records. */
  function DispatchAudit(orderId: string, initiator: string, now: Clock.Instant): (a: AuditEntry)
    ensures a.userId == "COUNTER" && a.userName == initiator && a.action == "DISPATCH_ORDER"
    ensures a.details == DispatchDetail(orderId) && a.timestamp == now.iso
  {
    NewAudit("COUNTER", initiator, "DISPATCH_ORDER", DispatchDetail(orderId), now)
  }

  /** `product?.name || id`: the deleted product's name, or its id when there is none or it is empty. */
  function DeletedLabel(ps: seq<Product>, id: string): (shown: string)
    ensures (forall i :: 0 <= i < |ps| ==> ps[i].id != id) ==> shown == id
    ensures forall i :: Keyed.Find(ps, ProductId, id) == Some(i) && ps[i].name != "" ==> shown == ps[i].name
    ensures forall i :: Keyed.Find(ps, ProductId, id) == Some(i) && ps[i].name == "" ==> shown == id
  {
    match Keyed.Find(ps, ProductId, id)
    case Some(i) => if ps[i].name != "" then ps[i].name else id
    case None => id
  }

  class Store {
    var businessName: string
    var businessType: BusinessType
    var currency: string
    var taxRate: int
    var products: seq<Product>
    var activeOrders: seq<Order>
    var completedOrders: seq<Order>
    var notifications: seq<Notification>
    var auditTrail: seq<AuditEntry>

    /** The feed and the trail stay within their caps. */
    predicate Valid()
      reads this
    {
      |notifications| <= NotificationCap && |auditTrail| <= AuditCap
    }

    /** The catalogue and the two order lists as one value. */
    function Snapshot(): Ledger
      reads this
    {
      Ledger(products, activeOrders, completedOrders)
    }

    constructor ()
      ensures Valid()
      ensures businessName == "Kenya Liquor Master" && businessType == LiquorStore
      ensures currency == "KES" && taxRate == 16
      ensures Snapshot() == Ledger(DefaultProducts(), [], [])
      ensures notifications == [] && auditTrail == []
    {
      businessName := "Kenya Liquor Master";
      businessType := LiquorStore;
      currency := "KES";
      taxRate := 16;
      products := DefaultProducts();
      activeOrders := [];
      completedOrders := [];
      notifications := [];
      auditTrail := [];
    }

    /** `updateSettings`: each setting given replaces the current one. */
    method UpdateSettings(name: Option<string>, kind: Option<BusinessType>, newCurrency: Option<string>, rate: Option<int>)
      modifies this`businessName, this`businessType, this`currency, this`taxRate
      ensures businessName == Or(name, old(businessName)) && businessType == Or(kind, old(businessType))
      ensures currency == Or(newCurrency, old(currency)) && taxRate == Or(rate, old(taxRate))
    {
      if name.Some? { businessName := name.value; }
      if kind.Some? { businessType := kind.value; }
      if newCurrency.Some? { currency := newCurrency.value; }
      if rate.Some? { taxRate := rate.value; }
    }

    /** `addNotification`: the new entry goes first and the feed keeps its newest 50. */
    method AddNotification(title: string, message: string, kind: NoteKind, now: Clock.Instant)
      modifies this`notifications
      ensures notifications == Pushed(old(notifications), NewNotification(title, message, kind, now), NotificationCap)
      ensures |notifications| <= NotificationCap
    {
      notifications := Pushed(notifications, NewNotification(title, message, kind, now), NotificationCap);
    }

    /** `markNotificationsRead` */
    method MarkNotificationsRead()
      requires Valid()
      modifies this`notifications
      ensures notifications == AllRead(old(notifications))
      ensures Valid()
    {
      notifications := AllRead(notifications);
    }

    /** `addAudit`: the new entry goes first and the trail keeps its newest 500. */
    method AddAudit(userId: string, userName: string, action: string, details: Detail, now: Clock.Instant)
      modifies this`auditTrail
      ensures auditTrail == Pushed(old(auditTrail), NewAudit(userId, userName, action, details, now), AuditCap)
      ensures |auditTrail| <= AuditCap
    {
      auditTrail := Pushed(auditTrail, NewAudit(userId, userName, action, details, now), AuditCap);
    }

    /** `addProduct`: appended as given, announced and audited. */
    method AddProduct(product: Product, adminName: string, now: Clock.Instant)
      requires Valid()
      modifies this`products, this`notifications, this`auditTrail
      ensures Valid()
      ensures products == old(products) + [product]
      ensures notifications == Pushed(old(notifications),
        NewNotification("Stock Addition", adminName + " added " + product.name + " to inventory.", StockAdd, now), NotificationCap)
      ensures auditTrail == Pushed(old(auditTrail),
        NewAudit("ADMIN", adminName, "ADD_PRODUCT", Plain("Added " + product.name + " at " + Text.IntText(product.price)), now), AuditCap)
    {
      products := products + [product];
      AddNotification("Stock Addition", adminName + " added " + product.name + " to inventory.", StockAdd, now);
      AddAudit("ADMIN", adminName, "ADD_PRODUCT", Plain("Added " + product.name + " at " + Text.IntText(product.price)), now);
    }

    /** `updateProduct`: every product with the id gets the edit; the edit is audited. */
    method UpdateProduct(id: string, updates: ProductPatch, adminName: string, now: Clock.Instant)
      requires Valid()
      modifies this`products, this`auditTrail
      ensures Valid()
      ensures products == PatchedProducts(old(products), id, updates)
      ensures auditTrail == Pushed(old(auditTrail), NewAudit("ADMIN", adminName, "UPDATE_PRODUCT", ProductChanges(id, updates), now), AuditCap)
    {
      products := PatchedProducts(products, id, updates);
      AddAudit("ADMIN", adminName, "UPDATE_PRODUCT", ProductChanges(id, updates), now);
    }

    /** `deleteProduct`: every product with the id goes; the audit names what was there before. */
    method DeleteProduct(id: string, adminName: string, now: Clock.Instant)
      requires Valid()
      modifies this`products, this`auditTrail
      ensures Valid()
      ensures products == Keyed.Remove(old(products), ProductId, id)
      ensures auditTrail == Pushed(old(auditTrail),
        NewAudit("ADMIN", adminName, "DELETE_PRODUCT", Plain("Deleted " + DeletedLabel(old(products), id)), now), AuditCap)
    {
      var shown := DeletedLabel(products, id);
      products := Keyed.Remove(products, ProductId, id);
      AddAudit("ADMIN", adminName, "DELETE_PRODUCT", Plain("Deleted " + shown), now);
    }

    /**
     * `updateStock`: SALE subtracts and MANUAL adds, with no floor; a MANUAL
     * update is also announced and audited under the product's name.
     */
    method UpdateStock(productId: string, quantity: int, action: StockAction, initiator: string, now: Clock.Instant)
      modifies this`products, this`notifications, this`auditTrail
      ensures products == Restocked(old(products), productId, quantity, action)
      ensures action == Sale ==> notifications == old(notifications) && auditTrail == old(auditTrail)
      ensures action == Manual ==>
        && notifications == Pushed(old(notifications), ManualNote(products, initiator, productId, quantity, now), NotificationCap)
        && auditTrail == Pushed(old(auditTrail), ManualAudit(products, initiator, productId, quantity, now), AuditCap)
      ensures |old(notifications)| <= NotificationCap ==> |notifications| <= NotificationCap
      ensures |old(auditTrail)| <= AuditCap ==> |auditTrail| <= AuditCap
    {
      products := Restocked(products, productId, quantity, action);
      if action == Manual {
        AddNotification("Stock Updated", ManualMessage(products, initiator, productId, quantity), StockAdd, now);
        AddAudit("ADMIN", initiator, "MANUAL_STOCK_UPDATE", ManualDetail(products, productId, quantity), now);
      }
    }

    /** `items.forEach(item => updateStock(item.id, item.quantity, 'SALE', initiator))` */
    method DeductLines(items: seq<Cart.CartItem>, initiator: string, now: Clock.Instant)
      modifies this`products, this`notifications, this`auditTrail
      ensures products == Deducted(old(products), items)
      ensures notifications == old(notifications) && auditTrail == old(auditTrail)
    {
      var k := 0;
      while k < |items|
        invariant 0 <= k <= |items|
        invariant products == Deducted(old(products), items[..k])
        invariant notifications == old(notifications) && auditTrail == old(auditTrail)
      {
        assert items[..k + 1][..k] == items[..k];
        UpdateStock(items[k].id, items[k].quantity, Sale, initiator, now);
        k := k + 1;
      }
      assert items[..k] == items;
    }

    /** The void path's `updateStock(item.id, item.quantity, 'MANUAL', 'SYSTEM_VOID')` for each line. */
    method RestoreLines(items: seq<Cart.CartItem>, now: Clock.Instant)
      modifies this`products, this`notifications, this`auditTrail
      ensures products == Restored(old(products), items)
      ensures notifications == RestockNotes(old(notifications), old(products), items, "SYSTEM_VOID", now)
      ensures auditTrail == RestockAudits(old(auditTrail), old(products), items, "SYSTEM_VOID", now)
      ensures |old(notifications)| <= NotificationCap ==> |notifications| <= NotificationCap
      ensures |old(auditTrail)| <= AuditCap ==> |auditTrail| <= AuditCap
    {
      var k := 0;
      while k < |items|
        invariant 0 <= k <= |items|
        invariant products == Restored(old(products), items[..k])
        invariant notifications == RestockNotes(old(notifications), old(products), items[..k], "SYSTEM_VOID", now)
        invariant auditTrail == RestockAudits(old(auditTrail), old(products), items[..k], "SYSTEM_VOID", now)
        invariant |old(notifications)| <= NotificationCap ==> |notifications| <= NotificationCap
        invariant |old(auditTrail)| <= AuditCap ==> |auditTrail| <= AuditCap
      {
        RestockStep(old(notifications), old(auditTrail), old(products), items, k, now);
        UpdateStock(items[k].id, items[k].quantity, Manual, "SYSTEM_VOID", now);
        k := k + 1;
      }
      assert items[..k] == items;
    }

    /** `createOrder`: appended as given. */
    method CreateOrder(order: Order)
      modifies this`activeOrders
      ensures Snapshot() == AfterCreate(old(Snapshot()), order)
    {
      activeOrders := activeOrders + [order];
    }

    /**
     * `dispatchOrder`: a PENDING target has its lines taken off the stock,
     * is marked DISPATCHED and the dispatch is audited; otherwise nothing happens.
     */
    method DispatchOrder(orderId: string, initiator: string, now: Clock.Instant)
      requires Valid()
      modifies this`products, this`activeOrders, this`notifications, this`auditTrail
      ensures Valid()
      ensures Snapshot() == AfterDispatch(old(Snapshot()), orderId)
      ensures notifications == old(notifications)
      ensures var t := TargetOrder(old(Snapshot()), orderId);
        auditTrail == if t.Some? && t.value.status == Pending
                      then Pushed(old(auditTrail), DispatchAudit(orderId, initiator, now), AuditCap)
                      else old(auditTrail)
    {
      var found := Keyed.Find(activeOrders, OrderId, orderId);
      if found.Some? && activeOrders[found.value].status == Pending {
        var order := activeOrders[found.value];
        DeductLines(order.items, initiator, now);
        activeOrders := WithStatus(activeOrders, orderId, Dispatched);
        AddAudit("COUNTER", initiator, "DISPATCH_ORDER", DispatchDetail(orderId), now);
      }
    }

    /**
     * `completeOrder`: the target's lines come off the stock if it was still
     * PENDING, every active order with the id leaves, a PAID copy is
     * appended to the completed orders and the payment is audited.
     */
    method CompleteOrder(orderId: string, initiator: string, now: Clock.Instant)
      requires Valid()
      modifies this`products, this`activeOrders, this`completedOrders, this`notifications, this`auditTrail
      ensures Valid()
      ensures Snapshot() == AfterComplete(old(Snapshot()), orderId)
      ensures notifications == old(notifications)
      ensures var t := TargetOrder(old(Snapshot()), orderId);
        auditTrail == if t.Some?
                      then Pushed(old(auditTrail),
                                  NewAudit("COUNTER", initiator, "ORDER_PAID", Settled(orderId, currency, t.value.total), now), AuditCap)
                      else old(auditTrail)
    {
      var found := Keyed.Find(activeOrders, OrderId, orderId);
      if found.Some? {
        var order := activeOrders[found.value];
        if order.status == Pending {
          DeductLines(order.items, initiator, now);
        }
        activeOrders := Keyed.Remove(activeOrders, OrderId, orderId);
        completedOrders := completedOrders + [order.(status := Paid)];
        AddAudit("COUNTER", initiator, "ORDER_PAID", Settled(orderId, currency, order.total), now);
      }
    }

    /** `recordSale`: the lines come off the stock and a PAID counter order is recorded and audited. */
    method RecordSale(items: seq<Cart.CartItem>, total: real, initiator: string, now: Clock.Instant)
      requires Valid()
      modifies this`products, this`completedOrders, this`notifications, this`auditTrail
      ensures Valid()
      ensures Snapshot() == AfterSale(old(Snapshot()), items, total, initiator, now)
      ensures notifications == old(notifications)
      ensures auditTrail == Pushed(old(auditTrail), NewAudit("COUNTER", initiator, "DIRECT_SALE", CounterSale(currency, total), now), AuditCap)
    {
      DeductLines(items, initiator, now);
      completedOrders := completedOrders + [CounterOrder(items, total, initiator, now)];
      AddAudit("COUNTER", initiator, "DIRECT_SALE", CounterSale(currency, total), now);
    }

    /**
     * `voidOrder`: a DISPATCHED target's lines go back on the stock, each as
     * an announced and audited MANUAL update by `SYSTEM_VOID`; then every
     * active order with the id is dropped.
     */
    method VoidOrder(orderId: string, now: Clock.Instant)
      requires Valid()
      modifies this`products, this`activeOrders, this`notifications, this`auditTrail
      ensures Valid()
      ensures Snapshot() == AfterVoid(old(Snapshot()), orderId)
      ensures var t := TargetOrder(old(Snapshot()), orderId);
        t.Some? && t.value.status == Dispatched ==>
          && notifications == RestockNotes(old(notifications), old(products), t.value.items, "SYSTEM_VOID", now)
          && auditTrail == RestockAudits(old(auditTrail), old(products), t.value.items, "SYSTEM_VOID", now)
      ensures var t := TargetOrder(old(Snapshot()), orderId);
        !(t.Some? && t.value.status == Dispatched) ==> notifications == old(notifications) && auditTrail == old(auditTrail)
    {
      ghost var l0 := Snapshot();
      var found := Keyed.Find(activeOrders, OrderId, orderId);
      assert TargetOrder(l0, orderId) == if found.Some? then Some(activeOrders[found.value]) else None;
      if found.Some? && activeOrders[found.value].status == Dispatched {
        RestoreLines(activeOrders[found.value].items, now);
      }
      activeOrders := Keyed.Remove(activeOrders, OrderId, orderId);
    }

    /** `getSalesByWaiter`: one running total per waiter name over the completed orders. */
    method GetSalesByWaiter() returns (sales: map<string, real>)
      ensures sales == Reports.SalesByWaiter(completedOrders)
      ensures forall name :: name in sales <==> exists i :: 0 <= i < |completedOrders| && completedOrders[i].waiterName == name
      ensures forall name :: name in sales ==> sales[name] == Reports.NameTotal(completedOrders, name)
      ensures Reports.MapTotal(sales) == Reports.Revenue(completedOrders)
    {
      sales := map[];
      var k := 0;
      while k < |completedOrders|
        invariant 0 <= k <= |completedOrders|
        invariant sales == Reports.SalesByWaiter(completedOrders[..k])
      {
        var o := completedOrders[k];
        assert completedOrders[..k + 1][..k] == completedOrders[..k];
        sales := Reports.Credit(sales, o);
        k := k + 1;
      }
      assert completedOrders[..k] == completedOrders;
      Reports.SalesByWaiterSumsToRevenue(completedOrders);
    }

    /** `getWaiterStats` over the current ledger. */
    function GetWaiterStats(waiterId: string): (r: Reports.Stats)
      reads this
      ensures r.settled == Reports.WaiterTotal(completedOrders, waiterId)
      ensures r.unsettled == Reports.WaiterTotal(activeOrders, waiterId)
      ensures r.total == r.settled + r.unsettled
    {
      Reports.WaiterStats(Snapshot(), waiterId)
    }
  }
}
