/**
 * Stock is deducted exactly once per order.  For every product, its stock
 * plus the quantity of it held by DISPATCHED active orders and by completed
 * orders never changes under the order transitions: a quantity leaves the
 * shelf exactly when the order holding it becomes DISPATCHED or PAID, and
 * comes back exactly when a DISPATCHED order is voided.
 */
module Reconciliation {
  import opened Wrappers
  import Keyed
  import Cart
  import Clock
  import opened Orders

  /** What a DISPATCHED active order holds of product `id`. */
  function HeldBy(o: Order, id: string): int {
    if o.status == Dispatched then QtyFor(o.items, id) else 0
  }

  function DispatchedQty(active: seq<Order>, id: string): int {
    if active == [] then 0 else DispatchedQty(active[..|active| - 1], id) + HeldBy(active[|active| - 1], id)
  }

  function SoldQty(completed: seq<Order>, id: string): int {
    if completed == [] then 0 else SoldQty(completed[..|completed| - 1], id) + QtyFor(completed[|completed| - 1].items, id)
  }

  /** The quantity of product `id` that the ledger's orders have taken off the shelf. */
  function Held(l: Ledger, id: string): int {
    DispatchedQty(l.active, id) + SoldQty(l.completed, id)
  }

  predicate UniqueOrderIds(active: seq<Order>) {
    forall i, k :: 0 <= i < k < |active| ==> active[i].id != active[k].id
  }

  /** What every reachable ledger satisfies: one active order per id, each PENDING or DISPATCHED. */
  predicate WellFormed(l: Ledger) {
    && UniqueOrderIds(l.active)
    && forall i :: 0 <= i < |l.active| ==> l.active[i].status == Pending || l.active[i].status == Dispatched
  }

  /** Only stock changes in the catalogue, and stock plus held quantity stays put. */
  predicate Conserved(l: Ledger, l': Ledger) {
    && |l'.products| == |l.products|
    && forall i :: 0 <= i < |l.products| ==>
         && l'.products[i] == l.products[i].(stock := l'.products[i].stock)
         && l'.products[i].stock + Held(l', l.products[i].id) == l.products[i].stock + Held(l, l.products[i].id)
  }

  lemma {:induction false} DispatchedQtyAppend(a: seq<Order>, b: seq<Order>, id: string)
    ensures DispatchedQty(a + b, id) == DispatchedQty(a, id) + DispatchedQty(b, id)
    decreases |b|
  {
    if b == [] {
      assert a + b == a;
    } else {
      assert (a + b)[..|a + b| - 1] == a + b[..|b| - 1];
      DispatchedQtyAppend(a, b[..|b| - 1], id);
    }
  }

  lemma {:induction false} SoldQtyAppend(a: seq<Order>, b: seq<Order>, id: string)
    ensures SoldQty(a + b, id) == SoldQty(a, id) + SoldQty(b, id)
    decreases |b|
  {
    if b == [] {
      assert a + b == a;
    } else {
      assert (a + b)[..|a + b| - 1] == a + b[..|b| - 1];
      SoldQtyAppend(a, b[..|b| - 1], id);
    }
  }

  lemma SoldQtySingle(o: Order, id: string)
    ensures SoldQty([o], id) == QtyFor(o.items, id)
  {
    assert [o][..0] == [];
  }

  /** Replacing the order at `j` changes the held quantity by the difference of the two orders'. */
  lemma DispatchedQtyReplace(s: seq<Order>, j: nat, o: Order, id: string)
    requires j < |s|
    ensures DispatchedQty(s[j := o], id) == DispatchedQty(s, id) - HeldBy(s[j], id) + HeldBy(o, id)
  {
    assert s == (s[..j] + [s[j]]) + s[j + 1..];
    assert s[j := o] == (s[..j] + [o]) + s[j + 1..];
    DispatchedQtyAppend(s[..j] + [s[j]], s[j + 1..], id);
    DispatchedQtyAppend(s[..j] + [o], s[j + 1..], id);
    assert (s[..j] + [s[j]])[..j] == s[..j];
    assert (s[..j] + [o])[..j] == s[..j];
  }

  /** Dropping the order at `j` takes away what it held. */
  lemma DispatchedQtyDrop(s: seq<Order>, j: nat, id: string)
    requires j < |s|
    ensures DispatchedQty(s[..j] + s[j + 1..], id) == DispatchedQty(s, id) - HeldBy(s[j], id)
  {
    assert s == (s[..j] + [s[j]]) + s[j + 1..];
    DispatchedQtyAppend(s[..j] + [s[j]], s[j + 1..], id);
    DispatchedQtyAppend(s[..j], s[j + 1..], id);
    assert (s[..j] + [s[j]])[..j] == s[..j];
  }

  /** With unique ids, the target at `j` is the only active order with its id. */
  lemma OnlyTarget(l: Ledger, id: string, j: nat)
    requires UniqueOrderIds(l.active) && IsTarget(l, id, j)
    ensures forall i :: 0 <= i < |l.active| && i != j ==> l.active[i].id != l.active[j].id
  {
  }

  /** Removing the target's id from a well-formed active list closes the gap at `j`. */
  lemma RemoveTarget(l: Ledger, id: string, j: nat)
    requires UniqueOrderIds(l.active) && IsTarget(l, id, j)
    ensures Keyed.Remove(l.active, OrderId, id) == l.active[..j] + l.active[j + 1..]
  {
    OnlyTarget(l, id, j);
    Keyed.RemoveAt(l.active, OrderId, j);
  }

  /** A list with one entry taken out keeps unique ids and the statuses of the others. */
  lemma DropKeepsWellFormed(l: Ledger, j: nat, l': Ledger)
    requires WellFormed(l) && j < |l.active|
    requires l'.active == l.active[..j] + l.active[j + 1..]
    ensures WellFormed(l')
  {
    var s, t := l.active, l'.active;
    assert forall i :: 0 <= i < |t| ==> t[i] == if i < j then s[i] else s[i + 1];
  }

  lemma CreatePreserves(l: Ledger, order: Order)
    requires WellFormed(l)
    requires order.status == Pending
    requires forall i :: 0 <= i < |l.active| ==> l.active[i].id != order.id
    ensures WellFormed(AfterCreate(l, order)) && Conserved(l, AfterCreate(l, order))
  {
    var l' := AfterCreate(l, order);
    forall i | 0 <= i < |l.products|
      ensures Held(l', l.products[i].id) == Held(l, l.products[i].id)
    {
      assert l'.active[..|l'.active| - 1] == l.active;
    }
  }

  lemma DispatchPreserves(l: Ledger, id: string)
    requires WellFormed(l)
    ensures WellFormed(AfterDispatch(l, id)) && Conserved(l, AfterDispatch(l, id))
  {
    if t: nat :| IsTarget(l, id, t) && l.active[t].status == Pending {
      DispatchMarksTarget(l, id, t);
      DispatchConserves(l, id, t);
    }
  }

  /** With unique ids, dispatching rewrites the status of the target alone. */
  lemma DispatchMarksTarget(l: Ledger, id: string, t: nat)
    requires WellFormed(l) && IsTarget(l, id, t) && l.active[t].status == Pending
    ensures AfterDispatch(l, id).active == l.active[t := l.active[t].(status := Dispatched)]
    ensures WellFormed(AfterDispatch(l, id))
  {
    DispatchShape(l, id, t);
    OnlyTarget(l, id, t);
    Keyed.UpdateAt(l.active, OrderId, id, (x: Order) => x.(status := Dispatched), t);
  }

  lemma DispatchConserves(l: Ledger, id: string, t: nat)
    requires WellFormed(l) && IsTarget(l, id, t) && l.active[t].status == Pending
    ensures Conserved(l, AfterDispatch(l, id))
  {
    var l' := AfterDispatch(l, id);
    var o' := l.active[t].(status := Dispatched);
    DispatchShape(l, id, t);
    DispatchMarksTarget(l, id, t);
    forall i | 0 <= i < |l.products|
      ensures l'.products[i].stock + Held(l', l.products[i].id) == l.products[i].stock + Held(l, l.products[i].id)
    {
      DispatchedQtyReplace(l.active, t, o', l.products[i].id);
    }
  }

  /** The arithmetic of completing the target `o` at `t`, for one product. */
  lemma CompleteHeld(l: Ledger, t: nat, l': Ledger, p: string)
    requires t < |l.active|
    requires l'.active == l.active[..t] + l.active[t + 1..]
    requires l'.completed == l.completed + [l.active[t].(status := Paid)]
    ensures Held(l', p) == Held(l, p) - HeldBy(l.active[t], p) + QtyFor(l.active[t].items, p)
  {
    var o := l.active[t].(status := Paid);
    DispatchedQtyDrop(l.active, t, p);
    SoldQtyAppend(l.completed, [o], p);
    SoldQtySingle(o, p);
  }

  lemma CompletePreserves(l: Ledger, id: string)
    requires WellFormed(l)
    ensures WellFormed(AfterComplete(l, id)) && Conserved(l, AfterComplete(l, id))
  {
    var l' := AfterComplete(l, id);
    match Target(l, id)
    case None =>
    case Some(t) =>
      assert IsTarget(l, id, t);
      RemoveTarget(l, id, t);
      DropKeepsWellFormed(l, t, l');
      forall i | 0 <= i < |l.products|
        ensures l'.products[i].stock + Held(l', l.products[i].id) == l.products[i].stock + Held(l, l.products[i].id)
      {
        CompleteHeld(l, t, l', l.products[i].id);
      }
  }

  lemma VoidPreserves(l: Ledger, id: string)
    requires WellFormed(l)
    ensures WellFormed(AfterVoid(l, id)) && Conserved(l, AfterVoid(l, id))
  {
    var l' := AfterVoid(l, id);
    if t: nat :| IsTarget(l, id, t) {
      RemoveTarget(l, id, t);
      DropKeepsWellFormed(l, t, l');
      forall i | 0 <= i < |l.products|
        ensures l'.products[i].stock + Held(l', l.products[i].id) == l.products[i].stock + Held(l, l.products[i].id)
      {
        DispatchedQtyDrop(l.active, t, l.products[i].id);
      }
    } else {
      assert Target(l, id).None?;
      assert l'.active == l.active;
    }
  }

  lemma SalePreserves(l: Ledger, items: seq<Cart.CartItem>, total: real, initiator: string, now: Clock.Instant)
    requires WellFormed(l)
    ensures WellFormed(AfterSale(l, items, total, initiator, now))
    ensures Conserved(l, AfterSale(l, items, total, initiator, now))
  {
    var l' := AfterSale(l, items, total, initiator, now);
    var o := CounterOrder(items, total, initiator, now);
    forall i | 0 <= i < |l.products|
      ensures l'.products[i].stock + Held(l', l.products[i].id) == l.products[i].stock + Held(l, l.products[i].id)
    {
      SoldQtyAppend(l.completed, [o], l.products[i].id);
      SoldQtySingle(o, l.products[i].id);
    }
  }

  /** The store's order operations, as calls a sequence of terminals might make. */
  datatype Action =
    | CreateOrder(order: Order)
    | DispatchOrder(orderId: string)
    | CompleteOrder(orderId: string)
    | VoidOrder(orderId: string)
    | RecordSale(items: seq<Cart.CartItem>, total: real, initiator: string, now: Clock.Instant)

  function Step(l: Ledger, a: Action): Ledger {
    match a
    case CreateOrder(order) => AfterCreate(l, order)
    case DispatchOrder(id) => AfterDispatch(l, id)
    case CompleteOrder(id) => AfterComplete(l, id)
    case VoidOrder(id) => AfterVoid(l, id)
    case RecordSale(items, total, initiator, now) => AfterSale(l, items, total, initiator, now)
  }

  /** What the checkout screen supplies: a new order is PENDING and its id is not already active. */
  predicate Legal(l: Ledger, a: Action) {
    a.CreateOrder? ==>
      a.order.status == Pending && forall i :: 0 <= i < |l.active| ==> l.active[i].id != a.order.id
  }

  function Run(l: Ledger, actions: seq<Action>): Ledger
    decreases |actions|
  {
    if actions == [] then l else Run(Step(l, actions[0]), actions[1..])
  }

  predicate LegalRun(l: Ledger, actions: seq<Action>)
    decreases |actions|
  {
    actions == [] || (Legal(l, actions[0]) && LegalRun(Step(l, actions[0]), actions[1..]))
  }

  lemma StepPreserves(l: Ledger, a: Action)
    requires WellFormed(l) && Legal(l, a)
    ensures WellFormed(Step(l, a)) && Conserved(l, Step(l, a))
  {
    match a
    case CreateOrder(order) => CreatePreserves(l, order);
    case DispatchOrder(id) => DispatchPreserves(l, id);
    case CompleteOrder(id) => CompletePreserves(l, id);
    case VoidOrder(id) => VoidPreserves(l, id);
    case RecordSale(items, total, initiator, now) => SalePreserves(l, items, total, initiator, now);
  }

  lemma ConservedTransitive(l1: Ledger, l2: Ledger, l3: Ledger)
    requires Conserved(l1, l2) && Conserved(l2, l3)
    ensures Conserved(l1, l3)
  {
    forall i | 0 <= i < |l1.products|
      ensures l2.products[i].id == l1.products[i].id
    {
      assert l2.products[i] == l1.products[i].(stock := l2.products[i].stock);
    }
  }

  /**
   * Over any legal sequence of order operations, each product's stock plus
   * the quantity the ledger's orders hold of it is what it was at the start:
   * every order's lines are taken off the shelf exactly once while the order
   * is DISPATCHED or PAID, and put back only when a DISPATCHED order is voided.
   */
  lemma {:induction false} ExactlyOnce(l: Ledger, actions: seq<Action>)
    requires WellFormed(l) && LegalRun(l, actions)
    ensures WellFormed(Run(l, actions)) && Conserved(l, Run(l, actions))
    decreases |actions|
  {
    if actions == [] {
      assert Run(l, actions) == l;
    } else {
      var l1 := Step(l, actions[0]);
      StepPreserves(l, actions[0]);
      ExactlyOnce(l1, actions[1..]);
      ConservedTransitive(l, l1, Run(l1, actions[1..]));
    }
  }

  /**
   * From a ledger with no orders, each product's stock afterwards is its
   * starting stock less exactly what the dispatched and paid orders hold.
   */
  lemma FromEmptyLedger(l: Ledger, actions: seq<Action>)
    requires l.active == [] && l.completed == [] && LegalRun(l, actions)
    ensures var r := Run(l, actions);
      && |r.products| == |l.products|
      && forall i :: 0 <= i < |l.products| ==>
           r.products[i].id == l.products[i].id &&
           r.products[i].stock == l.products[i].stock - Held(r, l.products[i].id)
  {
    var r := Run(l, actions);
    ExactlyOnce(l, actions);
    forall i | 0 <= i < |l.products|
      ensures r.products[i].id == l.products[i].id
    {
      assert r.products[i] == l.products[i].(stock := r.products[i].stock);
    }
  }

  /** What `dispatchOrder` does to a PENDING target, as one ledger value. */
  lemma DispatchShape(l: Ledger, id: string, t: nat)
    requires IsTarget(l, id, t) && l.active[t].status == Pending
    ensures AfterDispatch(l, id) == Ledger(Deducted(l.products, l.active[t].items), WithStatus(l.active, id, Dispatched), l.completed)
    ensures Target(AfterDispatch(l, id), id) == Some(t)
    ensures AfterDispatch(l, id).active[t] == l.active[t].(status := Dispatched)
  {
    Keyed.UpdateKeepsFind(l.active, OrderId, id, (x: Order) => x.(status := Dispatched), id);
  }

  /** What `completeOrder` does to a target, as one ledger value. */
  lemma CompleteShape(l: Ledger, id: string, t: nat)
    requires IsTarget(l, id, t)
    ensures AfterComplete(l, id) ==
      Ledger(if l.active[t].status == Pending then Deducted(l.products, l.active[t].items) else l.products,
             Keyed.Remove(l.active, OrderId, id), l.completed + [l.active[t].(status := Paid)])
  {
  }

  /** `completeOrder` after `dispatchOrder` does what `completeOrder` alone does. */
  lemma CompleteAbsorbsDispatch(l: Ledger, id: string)
    ensures AfterComplete(AfterDispatch(l, id), id) == AfterComplete(l, id)
  {
    if t: nat :| IsTarget(l, id, t) && l.active[t].status == Pending {
      DispatchShape(l, id, t);
      var l1 := AfterDispatch(l, id);
      CompleteShape(l1, id, t);
      CompleteShape(l, id, t);
      Keyed.RemoveUpdate(l.active, OrderId, id, (x: Order) => x.(status := Dispatched));
    }
  }

  /** A second `dispatchOrder` of the same order is a no-op: its stock is not deducted twice. */
  lemma DispatchIdempotent(l: Ledger, id: string)
    ensures AfterDispatch(AfterDispatch(l, id), id) == AfterDispatch(l, id)
  {
    if t: nat :| IsTarget(l, id, t) && l.active[t].status == Pending {
      DispatchShape(l, id, t);
    }
  }

  /** Lines deducted and then put back leave every product as it was. */
  lemma DeductedThenRestored(ps: seq<Product>, items: seq<Cart.CartItem>)
    ensures Restored(Deducted(ps, items), items) == ps
  {
    var d := Deducted(ps, items);
    var r := Restored(d, items);
    forall i | 0 <= i < |ps|
      ensures r[i] == ps[i]
    {
      assert d[i].id == ps[i].id;
    }
  }

  /**
   * Voiding a PENDING order right after dispatching it nets to zero: every
   * stock is back to its value before the dispatch, the order is gone from
   * the active list and the completed list is untouched.
   */
  lemma DispatchThenVoidNetsZero(l: Ledger, id: string, t: nat)
    requires IsTarget(l, id, t) && l.active[t].status == Pending
    ensures AfterVoid(AfterDispatch(l, id), id).products == l.products
    ensures AfterVoid(AfterDispatch(l, id), id).active == Keyed.Remove(l.active, OrderId, id)
    ensures AfterVoid(AfterDispatch(l, id), id).completed == l.completed
  {
    DispatchShape(l, id, t);
    Keyed.RemoveUpdate(l.active, OrderId, id, (x: Order) => x.(status := Dispatched));
    DeductedThenRestored(l.products, l.active[t].items);
  }

  /** Once an order is completed, voiding its id changes nothing: paid stock is never put back. */
  lemma VoidAfterCompleteIsNoOp(l: Ledger, id: string)
    ensures AfterVoid(AfterComplete(l, id), id) == AfterComplete(l, id)
  {
    var l1 := AfterComplete(l, id);
    if Target(l, id).Some? {
      Keyed.RemoveIdempotent(l.active, OrderId, id);
      assert Target(l1, id).None?;
    }
  }
}
