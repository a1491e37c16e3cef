/**
 * The two derived figures the dashboards show: revenue per waiter name over
 * the completed orders, and one waiter's settled, unsettled and combined
 * takings.
 */
module Reports {
  import Keyed
  import Clock
  import Cart
  import opened Orders
  import Reconciliation

  /** Sum of the totals of a list of orders. */
  function Revenue(os: seq<Order>): real {
    if os == [] then 0.0 else Revenue(os[..|os| - 1]) + os[|os| - 1].total
  }

  /** Sum of the totals of the orders with that waiter id. */
  function WaiterTotal(os: seq<Order>, waiterId: string): (sum: real)
    ensures (forall i :: 0 <= i < |os| ==> os[i].waiterId != waiterId) ==> sum == 0.0
    ensures (forall i :: 0 <= i < |os| ==> os[i].total >= 0.0) ==> sum >= 0.0
  {
    if os == [] then 0.0
    else WaiterTotal(os[..|os| - 1], waiterId) + (if os[|os| - 1].waiterId == waiterId then os[|os| - 1].total else 0.0)
  }

  /** Sum of the totals of the orders taken under that waiter name. */
  function NameTotal(os: seq<Order>, name: string): real {
    if os == [] then 0.0
    else NameTotal(os[..|os| - 1], name) + (if os[|os| - 1].waiterName == name then os[|os| - 1].total else 0.0)
  }

  /** `sales[o.waiterName] = (sales[o.waiterName] || 0) + o.total` */
  function Credit(sales: map<string, real>, o: Order): (r: map<string, real>)
    ensures forall name :: name in r <==> name in sales || name == o.waiterName
    ensures r[o.waiterName] == (if o.waiterName in sales then sales[o.waiterName] else 0.0) + o.total
    ensures forall name :: name in sales && name != o.waiterName ==> r[name] == sales[name]
  {
    sales[o.waiterName := (if o.waiterName in sales then sales[o.waiterName] else 0.0) + o.total]
  }

  /**
   * What `getSalesByWaiter` accumulates: one entry per waiter name that
   * occurs, holding the sum of that name's order totals.
   */
  function SalesByWaiter(os: seq<Order>): (sales: map<string, real>)
    ensures forall name :: name in sales <==> exists i :: 0 <= i < |os| && os[i].waiterName == name
    ensures forall name :: name in sales ==> sales[name] == NameTotal(os, name)
    ensures forall name :: name !in sales ==> NameTotal(os, name) == 0.0
  {
    if os == [] then map[]
    else
      var init, o := os[..|os| - 1], os[|os| - 1];
      assert os == init + [o];
      CreditStep(init, o, SalesByWaiter(init));
      Credit(SalesByWaiter(init), o)
  }

  /** `sales` has one entry per waiter name occurring in `os`, holding that name's total. */
  ghost predicate Tallies(sales: map<string, real>, os: seq<Order>) {
    && (forall name :: name in sales <==> exists i :: 0 <= i < |os| && os[i].waiterName == name)
    && (forall name :: name in sales ==> sales[name] == NameTotal(os, name))
    && (forall name :: name !in sales ==> NameTotal(os, name) == 0.0)
  }

  /** Crediting one more order to a tally of `init` tallies `init + [o]`. */
  lemma CreditStep(init: seq<Order>, o: Order, prev: map<string, real>)
    requires Tallies(prev, init)
    ensures Tallies(Credit(prev, o), init + [o])
  {
    var os, r := init + [o], Credit(prev, o);
    forall name | exists i :: 0 <= i < |os| && os[i].waiterName == name
      ensures name in r
    {
      var i :| 0 <= i < |os| && os[i].waiterName == name;
      if i < |init| {
        assert init[i].waiterName == name;
      }
    }
    forall name | name in r
      ensures exists i :: 0 <= i < |os| && os[i].waiterName == name
    {
      if name == o.waiterName {
        assert os[|init|] == o;
      } else {
        var i :| 0 <= i < |init| && init[i].waiterName == name;
        assert os[i] == init[i];
      }
    }
    forall name | name in r
      ensures r[name] == NameTotal(os, name)
    {
      NameTotalSnoc(init, o, name);
    }
    forall name | name !in r
      ensures NameTotal(os, name) == 0.0
    {
      NameTotalSnoc(init, o, name);
    }
  }

  lemma NameTotalSnoc(init: seq<Order>, o: Order, name: string)
    ensures NameTotal(init + [o], name) == NameTotal(init, name) + (if o.waiterName == name then o.total else 0.0)
  {
    assert (init + [o])[..|init|] == init;
  }

  /** The sum of a map's values. */
  ghost function MapTotal(m: map<string, real>): real
    decreases |m|
  {
    if m == map[] then 0.0
    else
      var k :| k in m;
      assert |m.Keys - {k}| == |m.Keys| - 1;
      m[k] + MapTotal(m - {k})
  }

  /** Any one key can be summed first. */
  lemma {:induction false} MapTotalRemove(m: map<string, real>, k: string)
    requires k in m
    ensures MapTotal(m) == m[k] + MapTotal(m - {k})
    decreases |m|
  {
    var j :| j in m && MapTotal(m) == m[j] + MapTotal(m - {j});
    if j != k {
      assert |m.Keys - {j}| == |m.Keys| - 1;
      assert |m.Keys - {k}| == |m.Keys| - 1;
      MapTotalRemove(m - {j}, k);
      MapTotalRemove(m - {k}, j);
      assert m - {j} - {k} == m - {k} - {j};
    }
  }

  /** The per-waiter figures add up to the revenue of all completed orders: nothing dropped, nothing twice. */
  lemma {:induction false} SalesByWaiterSumsToRevenue(os: seq<Order>)
    ensures MapTotal(SalesByWaiter(os)) == Revenue(os)
    decreases |os|
  {
    if os != [] {
      var init := os[..|os| - 1];
      SalesByWaiterSumsToRevenue(init);
      CreditTotal(SalesByWaiter(init), os[|os| - 1]);
    }
  }

  /** Crediting an order raises the sum of the map by the order's total. */
  lemma CreditTotal(m: map<string, real>, o: Order)
    ensures MapTotal(Credit(m, o)) == MapTotal(m) + o.total
  {
    var n := o.waiterName;
    var m' := Credit(m, o);
    MapTotalRemove(m', n);
    assert m' - {n} == m - {n};
    if n in m {
      MapTotalRemove(m, n);
    } else {
      assert m - {n} == m;
    }
  }

  datatype Stats = Stats(settled: real, unsettled: real, total: real)

  /**
   * `getWaiterStats`: settled is the waiter's completed takings, unsettled
   * what their active orders are worth, and total the two together.
   */
  function WaiterStats(l: Ledger, waiterId: string): (r: Stats)
    ensures r.settled == WaiterTotal(l.completed, waiterId)
    ensures r.unsettled == WaiterTotal(l.active, waiterId)
    ensures r.total == r.settled + r.unsettled
  {
    var settled := WaiterTotal(l.completed, waiterId);
    var unsettled := WaiterTotal(l.active, waiterId);
    Stats(settled, unsettled, settled + unsettled)
  }

  lemma {:induction false} WaiterTotalAppend(a: seq<Order>, b: seq<Order>, w: string)
    ensures WaiterTotal(a + b, w) == WaiterTotal(a, w) + WaiterTotal(b, w)
    decreases |b|
  {
    if b == [] {
      assert a + b == a;
    } else {
      assert (a + b)[..|a + b| - 1] == a + b[..|b| - 1];
      WaiterTotalAppend(a, b[..|b| - 1], w);
    }
  }

  /** What one order contributes to a waiter's figure. */
  function Share(o: Order, w: string): real {
    if o.waiterId == w then o.total else 0.0
  }

  lemma WaiterTotalSingle(o: Order, w: string)
    ensures WaiterTotal([o], w) == Share(o, w)
  {
    assert [o][..0] == [];
  }

  /** Lists that agree on waiter ids and totals, position by position, have the same figures. */
  lemma {:induction false} WaiterTotalAgree(a: seq<Order>, b: seq<Order>, w: string)
    requires |a| == |b|
    requires forall i :: 0 <= i < |a| ==> a[i].waiterId == b[i].waiterId && a[i].total == b[i].total
    ensures WaiterTotal(a, w) == WaiterTotal(b, w)
    decreases |a|
  {
    if a != [] {
      WaiterTotalAgree(a[..|a| - 1], b[..|b| - 1], w);
    }
  }

  lemma WaiterTotalDrop(s: seq<Order>, j: nat, w: string)
    requires j < |s|
    ensures WaiterTotal(s[..j] + s[j + 1..], w) == WaiterTotal(s, w) - Share(s[j], w)
  {
    assert s == (s[..j] + [s[j]]) + s[j + 1..];
    WaiterTotalAppend(s[..j] + [s[j]], s[j + 1..], w);
    WaiterTotalAppend(s[..j], s[j + 1..], w);
    assert (s[..j] + [s[j]])[..j] == s[..j];
  }

  /** A new order adds its total to its waiter's unsettled figure. */
  lemma CreateRaisesUnsettled(l: Ledger, order: Order, w: string)
    ensures WaiterStats(AfterCreate(l, order), w).settled == WaiterStats(l, w).settled
    ensures WaiterStats(AfterCreate(l, order), w).unsettled == WaiterStats(l, w).unsettled + Share(order, w)
  {
    WaiterTotalAppend(l.active, [order], w);
    WaiterTotalSingle(order, w);
  }

  /** Dispatching only changes a status, so no waiter's figures move. */
  lemma DispatchKeepsStats(l: Ledger, id: string, w: string)
    ensures WaiterStats(AfterDispatch(l, id), w) == WaiterStats(l, w)
  {
    var l' := AfterDispatch(l, id);
    if l'.active != l.active {
      WaiterTotalAgree(l'.active, l.active, w);
    }
  }

  /**
   * Settling moves the order's total from its waiter's unsettled figure to
   * the settled one; the waiter's combined total does not change.
   */
  lemma CompleteMovesToSettled(l: Ledger, id: string, w: string, t: nat)
    requires Reconciliation.UniqueOrderIds(l.active) && IsTarget(l, id, t)
    ensures WaiterStats(AfterComplete(l, id), w).settled == WaiterStats(l, w).settled + Share(l.active[t], w)
    ensures WaiterStats(AfterComplete(l, id), w).unsettled == WaiterStats(l, w).unsettled - Share(l.active[t], w)
    ensures WaiterStats(AfterComplete(l, id), w).total == WaiterStats(l, w).total
  {
    var o := l.active[t];
    Reconciliation.RemoveTarget(l, id, t);
    WaiterTotalDrop(l.active, t, w);
    WaiterTotalAppend(l.completed, [o.(status := Paid)], w);
    WaiterTotalSingle(o.(status := Paid), w);
  }

  /** Voiding drops the order's total from its waiter's unsettled figure and leaves settled alone. */
  lemma VoidDropsUnsettled(l: Ledger, id: string, w: string, t: nat)
    requires Reconciliation.UniqueOrderIds(l.active) && IsTarget(l, id, t)
    ensures WaiterStats(AfterVoid(l, id), w).settled == WaiterStats(l, w).settled
    ensures WaiterStats(AfterVoid(l, id), w).unsettled == WaiterStats(l, w).unsettled - Share(l.active[t], w)
  {
    Reconciliation.RemoveTarget(l, id, t);
    WaiterTotalDrop(l.active, t, w);
  }

  /** A counter sale is settled takings of the pseudo-waiter `COUNTER` and of nobody else. */
  lemma SaleSettledAtCounter(l: Ledger, items: seq<Cart.CartItem>, total: real, initiator: string,
                             now: Clock.Instant, w: string)
    ensures WaiterStats(AfterSale(l, items, total, initiator, now), w).settled
         == WaiterStats(l, w).settled + (if w == "COUNTER" then total else 0.0)
    ensures WaiterStats(AfterSale(l, items, total, initiator, now), w).unsettled == WaiterStats(l, w).unsettled
  {
    var o := CounterOrder(items, total, initiator, now);
    WaiterTotalAppend(l.completed, [o], w);
    WaiterTotalSingle(o, w);
  }
}
