/**
 * The order ledger and the stock it draws on, as values: the product
 * catalogue, the active orders (PENDING or DISPATCHED) and the completed
 * orders (PAID), and the five transitions the business store performs on
 * them.  The store's methods are proved to act as these functions do; the
 * lemmas below prove what the functions promise about stock.
 */
module Orders {
  import opened Wrappers
  import Keyed
  import Text
  import Clock
  import Cart

  datatype Status = Pending | Dispatched | Paid | Void

  datatype Product = Product(id: string, name: string, price: int, category: string,
                             stock: int, volume: string, kind: Option<string>)

  /** An order; its lines are the cart lines it was taken from. */
  datatype Order = Order(id: string, waiterId: string, waiterName: string,
                         items: seq<Cart.CartItem>, total: real, status: Status, timestamp: string)

  /** `'SALE'` takes the quantity off the stock, `'MANUAL'` puts it on. */
  datatype StockAction = Sale | Manual

  datatype Ledger = Ledger(products: seq<Product>, active: seq<Order>, completed: seq<Order>)

  function ProductId(p: Product): string { p.id }

  function OrderId(o: Order): string { o.id }

  function StockAfter(stock: int, quantity: int, action: StockAction): int {
    if action == Sale then stock - quantity else stock + quantity
  }

  /** `updateStock`'s map over the catalogue: no floor, so stock may go negative. */
  function Restocked(ps: seq<Product>, id: string, quantity: int, action: StockAction): (r: seq<Product>)
    ensures |r| == |ps|
    ensures forall i :: 0 <= i < |ps| && ps[i].id == id ==>
      r[i] == ps[i].(stock := if action == Sale then ps[i].stock - quantity else ps[i].stock + quantity)
    ensures forall i :: 0 <= i < |ps| && ps[i].id != id ==> r[i] == ps[i]
  {
    Keyed.Update(ps, ProductId, id, (p: Product) => p.(stock := StockAfter(p.stock, quantity, action)))
  }

  /** Total quantity of product `id` over a list of lines. */
  function QtyFor(items: seq<Cart.CartItem>, id: string): int {
    if items == [] then 0
    else QtyFor(items[..|items| - 1], id) + (if items[|items| - 1].id == id then items[|items| - 1].quantity else 0)
  }

  /** The SALE updates of `items.forEach(item => updateStock(item.id, item.quantity, 'SALE'))`. */
  function Deducted(ps: seq<Product>, items: seq<Cart.CartItem>): (r: seq<Product>)
    ensures |r| == |ps|
    ensures forall i :: 0 <= i < |ps| ==> r[i] == ps[i].(stock := ps[i].stock - QtyFor(items, ps[i].id))
  {
    if items == [] then ps
    else
      var last := items[|items| - 1];
      Restocked(Deducted(ps, items[..|items| - 1]), last.id, last.quantity, Sale)
  }

  /** The MANUAL updates the void path makes, one per line, putting the quantities back. */
  function Restored(ps: seq<Product>, items: seq<Cart.CartItem>): (r: seq<Product>)
    ensures |r| == |ps|
    ensures forall i :: 0 <= i < |ps| ==> r[i] == ps[i].(stock := ps[i].stock + QtyFor(items, ps[i].id))
  {
    if items == [] then ps
    else
      var last := items[|items| - 1];
      Restocked(Restored(ps, items[..|items| - 1]), last.id, last.quantity, Manual)
  }

  /** `activeOrders.map(o => o.id === id ? { ...o, status } : o)`. */
  function WithStatus(active: seq<Order>, id: string, status: Status): (r: seq<Order>)
    ensures |r| == |active|
    ensures forall i :: 0 <= i < |active| ==> r[i] == if active[i].id == id then active[i].(status := status) else active[i]
  {
    Keyed.Update(active, OrderId, id, (o: Order) => o.(status := status))
  }

  /** The active order an action on `id` works on: the first with that id. */
  function Target(l: Ledger, id: string): Option<nat> {
    Keyed.Find(l.active, OrderId, id)
  }

  predicate IsTarget(l: Ledger, id: string, j: nat) {
    Target(l, id) == Some(j) && j < |l.active|
  }

  /** `createOrder`: the order is appended as given; stock is not touched. */
  function AfterCreate(l: Ledger, order: Order): (r: Ledger)
    ensures r.active == l.active + [order]
    ensures r.products == l.products && r.completed == l.completed
  {
    l.(active := l.active + [order])
  }

  /**
   * `dispatchOrder`: a PENDING target has each line's quantity deducted and
   * every active order with that id marked DISPATCHED; anything else is a no-op.
   */
  function AfterDispatch(l: Ledger, id: string): (r: Ledger)
    ensures r.completed == l.completed
    ensures forall j: nat :: IsTarget(l, id, j) && l.active[j].status == Pending ==>
      && |r.products| == |l.products|
      && (forall i :: 0 <= i < |l.products| ==>
            r.products[i] == l.products[i].(stock := l.products[i].stock - QtyFor(l.active[j].items, l.products[i].id)))
      && r.active == WithStatus(l.active, id, Dispatched)
    ensures (Target(l, id).None? || l.active[Target(l, id).value].status != Pending) ==> r == l
  {
    match Target(l, id)
    case None => l
    case Some(j) =>
      if l.active[j].status == Pending then
        Ledger(Deducted(l.products, l.active[j].items), WithStatus(l.active, id, Dispatched), l.completed)
      else l
  }

  /**
   * `completeOrder`: the target leaves the active list (with every order of
   * that id) and a PAID copy of it joins the completed list; its stock is
   * deducted now only if it was still PENDING.  No target: no-op.
   */
  function AfterComplete(l: Ledger, id: string): (r: Ledger)
    ensures forall j: nat :: IsTarget(l, id, j) ==>
      && r.active == Keyed.Remove(l.active, OrderId, id)
      && r.completed == l.completed + [l.active[j].(status := Paid)]
      && |r.products| == |l.products|
      && (forall i :: 0 <= i < |l.products| ==>
            r.products[i] == if l.active[j].status == Pending
                             then l.products[i].(stock := l.products[i].stock - QtyFor(l.active[j].items, l.products[i].id))
                             else l.products[i])
    ensures Target(l, id).None? ==> r == l
  {
    match Target(l, id)
    case None => l
    case Some(j) =>
      var order := l.active[j];
      Ledger(if order.status == Pending then Deducted(l.products, order.items) else l.products,
             Keyed.Remove(l.active, OrderId, id),
             l.completed + [order.(status := Paid)])
  }

  /**
   * `voidOrder`: every active order with the id is dropped; the quantities
   * come back only when the target was DISPATCHED.  Completed orders stay.
   */
  function AfterVoid(l: Ledger, id: string): (r: Ledger)
    ensures r.active == Keyed.Remove(l.active, OrderId, id)
    ensures r.completed == l.completed
    ensures forall j: nat :: IsTarget(l, id, j) && l.active[j].status == Dispatched ==>
      && |r.products| == |l.products|
      && (forall i :: 0 <= i < |l.products| ==>
            r.products[i] == l.products[i].(stock := l.products[i].stock + QtyFor(l.active[j].items, l.products[i].id)))
    ensures (Target(l, id).None? || l.active[Target(l, id).value].status != Dispatched) ==> r.products == l.products
  {
    var products :=
      match Target(l, id)
      case Some(j) => if l.active[j].status == Dispatched then Restored(l.products, l.active[j].items) else l.products
      case None => l.products;
    Ledger(products, Keyed.Remove(l.active, OrderId, id), l.completed)
  }

  /** The order a walk-up sale records. */
  function CounterOrder(items: seq<Cart.CartItem>, total: real, initiator: string, now: Clock.Instant): (o: Order)
    ensures o.status == Paid && o.waiterId == "COUNTER" && o.waiterName == initiator
    ensures o.items == items && o.total == total && o.timestamp == now.iso
  {
    Order("INV-" + Text.NatText(now.millis), "COUNTER", initiator, items, total, Paid, now.iso)
  }

  /** `recordSale`: stock deducted at once and one PAID order appended to the completed list. */
  function AfterSale(l: Ledger, items: seq<Cart.CartItem>, total: real, initiator: string, now: Clock.Instant): (r: Ledger)
    ensures r.active == l.active
    ensures r.completed == l.completed + [CounterOrder(items, total, initiator, now)]
    ensures CounterOrder(items, total, initiator, now).status == Paid
    ensures CounterOrder(items, total, initiator, now).waiterId == "COUNTER"
    ensures |r.products| == |l.products|
    ensures forall i :: 0 <= i < |l.products| ==>
      r.products[i] == l.products[i].(stock := l.products[i].stock - QtyFor(items, l.products[i].id))
  {
    Ledger(Deducted(l.products, items), l.active, l.completed + [CounterOrder(items, total, initiator, now)])
  }

  /** `Partial<Product>`: the fields an edit sets; an absent field keeps its value. */
  datatype ProductPatch = ProductPatch(id: Option<string>, name: Option<string>, price: Option<int>,
                                       category: Option<string>, stock: Option<int>, volume: Option<string>,
                                       kind: Option<string>)

  function Or<T>(update: Option<T>, current: T): T {
    if update.Some? then update.value else current
  }

  /** `{ ...p, ...updates }` */
  function Patched(p: Product, u: ProductPatch): (r: Product)
    ensures u == ProductPatch(None, None, None, None, None, None, None) ==> r == p
    ensures r.id == (if u.id.Some? then u.id.value else p.id)
    ensures r.name == (if u.name.Some? then u.name.value else p.name)
    ensures r.price == (if u.price.Some? then u.price.value else p.price)
    ensures r.category == (if u.category.Some? then u.category.value else p.category)
    ensures r.stock == (if u.stock.Some? then u.stock.value else p.stock)
    ensures r.volume == (if u.volume.Some? then u.volume.value else p.volume)
    ensures r.kind == (if u.kind.Some? then u.kind else p.kind)
  {
    Product(Or(u.id, p.id), Or(u.name, p.name), Or(u.price, p.price), Or(u.category, p.category),
            Or(u.stock, p.stock), Or(u.volume, p.volume), if u.kind.Some? then u.kind else p.kind)
  }

  /** `updateProduct`'s map: every product with the id gets the edit, the others stay. */
  function PatchedProducts(ps: seq<Product>, id: string, u: ProductPatch): (r: seq<Product>)
    ensures |r| == |ps|
    ensures forall i :: 0 <= i < |ps| && ps[i].id == id ==> r[i] == Patched(ps[i], u)
    ensures forall i :: 0 <= i < |ps| && ps[i].id != id ==> r[i] == ps[i]
  {
    Keyed.Update(ps, ProductId, id, (p: Product) => Patched(p, u))
  }
}
