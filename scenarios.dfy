/**
 * Worked runs of the order lifecycle on the store's starting catalogue:
 * Tusker Lager (L3, 230) at index 2 and Gilbeys Gin (L2, 1450) at index 1.
 */
module Scenarios {
  import opened Wrappers
  import Keyed
  import Cart
  import Clock
  import opened Orders
  import Reports
  import Business
  import Reconciliation

  /** Two Tusker and one Gilbeys at 16% tax. */
  function Lines(): seq<Cart.CartItem> {
    [ Cart.CartItem("L3", "Tusker Lager 500ml", 230, 2, "Beer", 0.16),
      Cart.CartItem("L2", "Gilbeys Gin 750ml", 1450, 1, "Gin", 0.16) ]
  }

  /** Amina's table order as the checkout screen sends it: PENDING, total with tax. */
  function AminaOrder(): Order {
    Order("ORD-1", "W-AMINA", "Amina", Lines(), 1910.0 + 305.6, Pending, "2026-01-01T00:00:00.000Z")
  }

  lemma LinesTotals()
    ensures Cart.Subtotal(Lines()) == 2 * 230 + 1450
    ensures Cart.TaxTotal(Lines()) == 305.6
  {
    assert Lines()[..1][..0] == [];
    assert Lines()[..1] == [Lines()[0]];
  }

  function Opening(): Ledger {
    Ledger(Business.DefaultProducts(), [], [])
  }

  lemma LinesQuantities()
    ensures QtyFor(Lines(), "L3") == 2 && QtyFor(Lines(), "L2") == 1
    ensures forall id :: id != "L3" && id != "L2" ==> QtyFor(Lines(), id) == 0
  {
    assert Lines()[..1][..0] == [];
    forall id | id != "L3" && id != "L2"
      ensures QtyFor(Lines(), id) == 0
    {
      assert QtyFor(Lines()[..1], id) == 0;
    }
  }

  /** Dispatching the id of the one active order, when it is PENDING. */
  lemma DispatchOnly(l: Ledger, o: Order)
    requires l.active == [o] && o.status == Pending
    ensures AfterDispatch(l, o.id) == Ledger(Deducted(l.products, o.items), [o.(status := Dispatched)], l.completed)
  {
    assert Target(l, o.id) == Some(0);
    Reconciliation.DispatchShape(l, o.id, 0);
    var w := WithStatus(l.active, o.id, Dispatched);
    assert |w| == 1 && w[0] == o.(status := Dispatched);
  }

  /** Two Tusker and one Gilbeys come off the opening shelf and nothing else moves. */
  lemma LinesDeducted()
    ensures var ps, d := Opening().products, Deducted(Opening().products, Lines());
      && d[2].stock == 448 && d[1].stock == 111 && d[0] == ps[0]
  {
    LinesQuantities();
    var ps := Opening().products;
    var d := Deducted(ps, Lines());
    assert ps[0].id == "L1" && ps[1].id == "L2" && ps[2].id == "L3";
    assert d[0] == ps[0].(stock := ps[0].stock - QtyFor(Lines(), "L1"));
    assert d[1] == ps[1].(stock := ps[1].stock - QtyFor(Lines(), "L2"));
    assert d[2] == ps[2].(stock := ps[2].stock - QtyFor(Lines(), "L3"));
  }

  /** Dispatch takes 2 Tusker and 1 Gilbeys off the shelf and marks the order DISPATCHED. */
  lemma AminaDispatches()
    ensures var l1 := AfterDispatch(AfterCreate(Opening(), AminaOrder()), "ORD-1");
      && l1.products[2].stock == 448 && l1.products[1].stock == 111
      && l1.products[0] == Opening().products[0]
      && l1.active == [AminaOrder().(status := Dispatched)]
      && l1.completed == []
  {
    var l0 := AfterCreate(Opening(), AminaOrder());
    assert l0.active == [AminaOrder()];
    DispatchOnly(l0, AminaOrder());
    LinesDeducted();
  }

  /** Settling the id of the one active order, when it is DISPATCHED. */
  lemma SettleOnly(l: Ledger, id: string)
    requires |l.active| == 1 && l.active[0].id == id && l.active[0].status == Dispatched
    ensures AfterComplete(l, id) == Ledger(l.products, [], l.completed + [l.active[0].(status := Paid)])
  {
    assert Target(l, id) == Some(0);
    Reconciliation.CompleteShape(l, id, 0);
    assert Keyed.Remove(l.active, OrderId, id) == [];
  }

  lemma StatsOfOne(ps: seq<Product>, o: Order, w: string)
    requires o.waiterId == w
    ensures Reports.WaiterStats(Ledger(ps, [], [o]), w) == Reports.Stats(o.total, 0.0, o.total)
  {
    Reports.WaiterTotalSingle(o, w);
  }

  /** Settling the dispatched order leaves stock alone, empties the active list and credits Amina as settled. */
  lemma AminaSettles()
    ensures var l1 := AfterDispatch(AfterCreate(Opening(), AminaOrder()), "ORD-1");
      var l2 := AfterComplete(l1, "ORD-1");
      && l2.products == l1.products
      && l2.active == [] && l2.completed == [AminaOrder().(status := Paid)]
      && Reports.WaiterStats(l2, "W-AMINA") == Reports.Stats(AminaOrder().total, 0.0, AminaOrder().total)
  {
    var l0 := AfterCreate(Opening(), AminaOrder());
    assert l0.active == [AminaOrder()];
    DispatchOnly(l0, AminaOrder());
    var l1 := AfterDispatch(l0, "ORD-1");
    assert l1.active == [AminaOrder().(status := Dispatched)];
    SettleOnly(l1, "ORD-1");
    StatsOfOne(l1.products, AminaOrder().(status := Paid), "W-AMINA");
  }

  /** Voided right after dispatch, the order leaves both ledgers and the stock is back where it began. */
  lemma AminaVoids()
    ensures var l := AfterVoid(AfterDispatch(AfterCreate(Opening(), AminaOrder()), "ORD-1"), "ORD-1");
      l == Opening()
  {
    LinesQuantities();
    var l0 := AfterCreate(Opening(), AminaOrder());
    assert Target(l0, "ORD-1") == Some(0);
    Reconciliation.DispatchThenVoidNetsZero(l0, "ORD-1", 0);
    assert Keyed.Remove(l0.active, OrderId, "ORD-1") == [];
  }

  /** A counter sale of one Hennessy never touches the active orders and is recorded once, PAID. */
  lemma CounterSaleOnce(now: Clock.Instant)
    ensures var sale := [Cart.CartItem("L5", "Hennessy VS 700ml", 6800, 1, "Cognac", 0.16)];
      var l := AfterSale(Opening(), sale, 6800.0 + 1088.0, "Cashier", now);
      && l.active == []
      && |l.completed| == 1 && l.completed[0].status == Paid && l.completed[0].items == sale
      && l.products[4].stock == 11
      && forall i :: 0 <= i < 6 && i != 4 ==> l.products[i] == Opening().products[i]
  {
    var sale := [Cart.CartItem("L5", "Hennessy VS 700ml", 6800, 1, "Cognac", 0.16)];
    assert sale[..0] == [];
    assert forall id :: QtyFor(sale, id) == if id == "L5" then 1 else 0;
  }
}
