/**
 * The checkout cart: one line per product id, a quantity per line, and the
 * three totals every mutation recomputes from the lines.  Prices and
 * quantities are whole numbers; a line's tax is a rate (0.16 for 16%).
 */
module Cart {
  import opened Wrappers
  import Keyed

  datatype CartItem = CartItem(id: string, name: string, price: int, quantity: int, category: string, tax: real)

  /** What `addItem` is handed: a catalogue entry without a quantity. */
  datatype Offer = Offer(id: string, name: string, price: int, category: string, tax: real)

  function LineId(line: CartItem): string { line.id }

  /** The line `{ ...offer, quantity: 1 }` a first `addItem` appends. */
  function NewLine(offer: Offer): (line: CartItem)
    ensures line.id == offer.id && line.name == offer.name && line.category == offer.category
    ensures line.quantity == 1
    ensures line.price == offer.price && line.tax == offer.tax
  {
    CartItem(offer.id, offer.name, offer.price, 1, offer.category, offer.tax)
  }

  function LineAmount(line: CartItem): int { line.price * line.quantity }

  function LineTax(line: CartItem): real { line.price as real * line.tax * line.quantity as real }

  /** No line has a negative price, quantity or tax rate. */
  predicate Priced(items: seq<CartItem>) {
    forall i :: 0 <= i < |items| ==> items[i].price >= 0 && items[i].quantity >= 0 && items[i].tax >= 0.0
  }

  /** `items.reduce((acc, i) => acc + i.price * i.quantity, 0)` */
  function Subtotal(items: seq<CartItem>): int {
    if items == [] then 0 else Subtotal(items[..|items| - 1]) + LineAmount(items[|items| - 1])
  }

  /** `items.reduce((acc, i) => acc + i.price * i.tax * i.quantity, 0)` */
  function TaxTotal(items: seq<CartItem>): real {
    if items == [] then 0.0 else TaxTotal(items[..|items| - 1]) + LineTax(items[|items| - 1])
  }

  predicate UniqueIds(items: seq<CartItem>) {
    forall i, j :: 0 <= i < j < |items| ==> items[i].id != items[j].id
  }

  predicate PositiveQuantities(items: seq<CartItem>) {
    forall i :: 0 <= i < |items| ==> items[i].quantity >= 1
  }

  /** `addItem`: one more of an existing line, otherwise a new line of one at the end. */
  function AddLine(items: seq<CartItem>, offer: Offer): (r: seq<CartItem>)
    ensures Keyed.Find(items, LineId, offer.id).None? ==> r == items + [NewLine(offer)]
    ensures Keyed.Find(items, LineId, offer.id).Some? ==>
      |r| == |items| &&
      (forall i :: 0 <= i < |items| && items[i].id == offer.id ==> r[i] == items[i].(quantity := items[i].quantity + 1)) &&
      (forall i :: 0 <= i < |items| && items[i].id != offer.id ==> r[i] == items[i])
  {
    if Keyed.Find(items, LineId, offer.id).Some? then
      Keyed.Update(items, LineId, offer.id, (line: CartItem) => line.(quantity := line.quantity + 1))
    else
      items + [NewLine(offer)]
  }

  /** `removeItem`: `items.filter(i => i.id !== id)`. */
  function WithoutLine(items: seq<CartItem>, id: string): (r: seq<CartItem>)
    ensures forall i :: 0 <= i < |r| ==> r[i] in items && r[i].id != id
    ensures forall i :: 0 <= i < |items| && items[i].id != id ==> items[i] in r
    ensures |r| == |items| - Keyed.Count(items, LineId, id)
  {
    Keyed.RemoveMembers(items, LineId, id);
    Keyed.Remove(items, LineId, id)
  }

  /** `updateQuantity`: the matching lines get `Math.max(1, quantity + delta)`. */
  function Adjusted(items: seq<CartItem>, id: string, delta: int): (r: seq<CartItem>)
    ensures |r| == |items|
    ensures forall i :: 0 <= i < |items| && items[i].id == id ==>
      r[i] == items[i].(quantity := if items[i].quantity + delta < 1 then 1 else items[i].quantity + delta)
    ensures forall i :: 0 <= i < |items| && items[i].id != id ==> r[i] == items[i]
  {
    Keyed.Update(items, LineId, id,
      (line: CartItem) => line.(quantity := if line.quantity + delta < 1 then 1 else line.quantity + delta))
  }

  class CartStore {
    var items: seq<CartItem>
    var subtotal: int
    var taxTotal: real
    var total: real

    /** The totals are those of the current lines. */
    ghost predicate Valid()
      reads this
    {
      subtotal == Subtotal(items) && taxTotal == TaxTotal(items) && total == subtotal as real + taxTotal
    }

    constructor ()
      ensures Valid() && items == []
      ensures subtotal == 0 && taxTotal == 0.0 && total == 0.0
    {
      items := [];
      subtotal, taxTotal, total := 0, 0.0, 0.0;
    }

    /** The recomputation that closes every mutation. */
    method SetItems(newItems: seq<CartItem>)
      modifies this
      ensures items == newItems && Valid()
    {
      items := newItems;
      subtotal := Subtotal(newItems);
      taxTotal := TaxTotal(newItems);
      total := subtotal as real + taxTotal;
    }

    method AddItem(offer: Offer)
      modifies this
      ensures items == AddLine(old(items), offer) && Valid()
    {
      SetItems(AddLine(items, offer));
    }

    method RemoveItem(id: string)
      modifies this
      ensures items == WithoutLine(old(items), id) && Valid()
    {
      SetItems(WithoutLine(items, id));
    }

    method UpdateQuantity(id: string, delta: int)
      modifies this
      ensures items == Adjusted(old(items), id, delta) && Valid()
    {
      SetItems(Adjusted(items, id, delta));
    }

    method ClearCart()
      modifies this
      ensures items == [] && subtotal == 0 && taxTotal == 0.0 && total == 0.0
      ensures Valid()
    {
      items := [];
      subtotal, taxTotal, total := 0, 0.0, 0.0;
    }
  }

  /** `n` successive `addItem` calls. */
  function AddTimes(items: seq<CartItem>, offer: Offer, n: nat): seq<CartItem> {
    if n == 0 then items else AddLine(AddTimes(items, offer, n - 1), offer)
  }

  /** The second and later `addItem` of a product whose only line is the last one. */
  lemma AddToLastLine(items: seq<CartItem>, line: CartItem, offer: Offer)
    requires line.id == offer.id
    requires forall i :: 0 <= i < |items| ==> items[i].id != offer.id
    ensures AddLine(items + [line], offer) == items + [line.(quantity := line.quantity + 1)]
  {
    var prev := items + [line];
    assert prev[|items|].id == offer.id;
    var next := AddLine(prev, offer);
    var want := items + [line.(quantity := line.quantity + 1)];
    forall i | 0 <= i < |want|
      ensures next[i] == want[i]
    {
      if i < |items| {
        assert prev[i] == items[i];
      }
    }
  }

  /**
   * Adding the same product `n >= 1` times to a cart without it leaves the
   * old lines as they were and one line for it, at the end, with quantity `n`.
   */
  lemma {:induction false} AddTimesMerges(items: seq<CartItem>, offer: Offer, n: nat)
    requires n >= 1
    requires forall i :: 0 <= i < |items| ==> items[i].id != offer.id
    ensures AddTimes(items, offer, n) == items + [NewLine(offer).(quantity := n)]
  {
    if n == 1 {
      assert AddTimes(items, offer, 0) == items;
      assert Keyed.Find(items, LineId, offer.id).None?;
      assert NewLine(offer).(quantity := 1) == NewLine(offer);
    } else {
      var line := NewLine(offer).(quantity := n - 1);
      AddTimesMerges(items, offer, n - 1);
      assert AddTimes(items, offer, n) == AddLine(items + [line], offer);
      AddToLastLine(items, line, offer);
      assert line.(quantity := line.quantity + 1) == NewLine(offer).(quantity := n);
    }
  }

  /** The cart that `n >= 1` such additions leave holds exactly one line for the product. */
  lemma AddTimesOneLine(items: seq<CartItem>, offer: Offer, n: nat)
    requires n >= 1
    requires forall i :: 0 <= i < |items| ==> items[i].id != offer.id
    ensures Keyed.Count(AddTimes(items, offer, n), LineId, offer.id) == 1
  {
    AddTimesMerges(items, offer, n);
    CountOneAtEnd(items, NewLine(offer).(quantity := n));
  }

  lemma {:induction false} CountOneAtEnd(items: seq<CartItem>, line: CartItem)
    requires forall i :: 0 <= i < |items| ==> items[i].id != line.id
    ensures Keyed.Count(items + [line], LineId, line.id) == 1
  {
    if items == [] {
      assert [line][1..] == [];
    } else {
      assert (items + [line])[1..] == items[1..] + [line];
      CountOneAtEnd(items[1..], line);
    }
  }

  /** Every cart mutation keeps line ids unique. */
  lemma AddLineKeepsUnique(items: seq<CartItem>, offer: Offer)
    requires UniqueIds(items)
    ensures UniqueIds(AddLine(items, offer))
  {
  }

  lemma AdjustedKeepsUnique(items: seq<CartItem>, id: string, delta: int)
    requires UniqueIds(items)
    ensures UniqueIds(Adjusted(items, id, delta))
  {
  }

  lemma {:induction false} WithoutLineKeepsUnique(items: seq<CartItem>, id: string)
    requires UniqueIds(items)
    ensures UniqueIds(WithoutLine(items, id))
  {
    if items != [] {
      WithoutLineKeepsUnique(items[1..], id);
      var rest := WithoutLine(items[1..], id);
      assert forall i :: 0 <= i < |rest| ==> rest[i] in items[1..];
    }
  }

  /** Quantities never drop below one: `updateQuantity` clamps and the others add or drop whole lines. */
  lemma QuantitiesStayPositive(items: seq<CartItem>, offer: Offer, id: string, delta: int)
    requires PositiveQuantities(items)
    ensures PositiveQuantities(AddLine(items, offer))
    ensures PositiveQuantities(Adjusted(items, id, delta))
    ensures PositiveQuantities(WithoutLine(items, id))
  {
    AddLineKeepsPositive(items, offer);
    AdjustedKeepsPositive(items, id, delta);
    WithoutLineKeepsPositive(items, id);
  }

  lemma AddLineKeepsPositive(items: seq<CartItem>, offer: Offer)
    requires PositiveQuantities(items)
    ensures PositiveQuantities(AddLine(items, offer))
  {
    var r := AddLine(items, offer);
    forall i | 0 <= i < |r|
      ensures r[i].quantity >= 1
    {
      if i < |items| {
        assert r[i].quantity >= items[i].quantity;
      }
    }
  }

  lemma AdjustedKeepsPositive(items: seq<CartItem>, id: string, delta: int)
    requires PositiveQuantities(items)
    ensures PositiveQuantities(Adjusted(items, id, delta))
  {
    var r := Adjusted(items, id, delta);
    forall i | 0 <= i < |r|
      ensures r[i].quantity >= 1
    {
      if items[i].id != id {
        assert r[i] == items[i];
      }
    }
  }

  lemma WithoutLineKeepsPositive(items: seq<CartItem>, id: string)
    requires PositiveQuantities(items)
    ensures PositiveQuantities(WithoutLine(items, id))
  {
    var r := WithoutLine(items, id);
    forall i | 0 <= i < |r|
      ensures r[i].quantity >= 1
    {
      var j :| 0 <= j < |items| && items[j] == r[i];
    }
  }

  lemma {:induction false} SubtotalAppend(a: seq<CartItem>, b: seq<CartItem>)
    ensures Subtotal(a + b) == Subtotal(a) + Subtotal(b)
    ensures TaxTotal(a + b) == TaxTotal(a) + TaxTotal(b)
    decreases |b|
  {
    if b == [] {
      assert a + b == a;
    } else {
      var b' := b[..|b| - 1];
      assert (a + b)[..|a + b| - 1] == a + b';
      SubtotalAppend(a, b');
    }
  }

  /** Totals over lines with no negative price, quantity or tax rate are never negative. */
  lemma {:induction false} TotalsNonNegative(items: seq<CartItem>)
    requires Priced(items)
    ensures Subtotal(items) >= 0 && TaxTotal(items) >= 0.0
  {
    if items != [] {
      var init, line := items[..|items| - 1], items[|items| - 1];
      assert Priced(init) by {
        forall i | 0 <= i < |init|
          ensures init[i].price >= 0 && init[i].quantity >= 0 && init[i].tax >= 0.0
        {
          assert init[i] == items[i];
        }
      }
      TotalsNonNegative(init);
      LineNonNegative(line);
    }
  }

  lemma LineNonNegative(line: CartItem)
    requires line.price >= 0 && line.quantity >= 0 && line.tax >= 0.0
    ensures LineAmount(line) >= 0 && LineTax(line) >= 0.0
  {
    assert line.price as real * line.tax >= 0.0;
  }

  /** A new line is one unit of the offer. */
  lemma NewLineAmounts(offer: Offer)
    ensures LineAmount(NewLine(offer)) == offer.price
    ensures LineTax(NewLine(offer)) == offer.price as real * offer.tax
  {
  }

  /** A line appended at the end adds its own amounts to the totals. */
  lemma AppendTotals(items: seq<CartItem>, line: CartItem)
    ensures Subtotal(items + [line]) == Subtotal(items) + LineAmount(line)
    ensures TaxTotal(items + [line]) == TaxTotal(items) + LineTax(line)
  {
    assert (items + [line])[..|items|] == items;
  }

  /** Replacing one line changes the totals by the difference of that line's amounts. */
  lemma {:induction false} SubtotalReplace(items: seq<CartItem>, j: nat, line: CartItem)
    requires j < |items|
    ensures Subtotal(items[j := line]) == Subtotal(items) - LineAmount(items[j]) + LineAmount(line)
    ensures TaxTotal(items[j := line]) == TaxTotal(items) - LineTax(items[j]) + LineTax(line)
  {
    var after := items[j := line];
    assert items == items[..j] + [items[j]] + items[j + 1..];
    assert after == items[..j] + [line] + items[j + 1..];
    SubtotalAppend(items[..j] + [items[j]], items[j + 1..]);
    SubtotalAppend(items[..j], [items[j]]);
    SubtotalAppend(items[..j] + [line], items[j + 1..]);
    SubtotalAppend(items[..j], [line]);
    assert Subtotal([items[j]]) == LineAmount(items[j]) && TaxTotal([items[j]]) == LineTax(items[j]) by {
      assert [items[j]][..0] == [];
    }
    assert Subtotal([line]) == LineAmount(line) && TaxTotal([line]) == LineTax(line) by {
      assert [line][..0] == [];
    }
  }

  /** One more unit on a line adds one unit price and one unit's tax to the totals. */
  lemma BumpTotals(items: seq<CartItem>, j: nat)
    requires j < |items|
    ensures var bumped := items[j := items[j].(quantity := items[j].quantity + 1)];
            Subtotal(bumped) == Subtotal(items) + items[j].price &&
            TaxTotal(bumped) == TaxTotal(items) + items[j].price as real * items[j].tax
  {
    SubtotalReplace(items, j, items[j].(quantity := items[j].quantity + 1));
    UnitMore(items[j]);
  }

  /** One more unit on a line adds one unit price to its amount and one unit's tax to its tax. */
  lemma UnitMore(line: CartItem)
    ensures LineAmount(line.(quantity := line.quantity + 1)) == LineAmount(line) + line.price
    ensures LineTax(line.(quantity := line.quantity + 1)) == LineTax(line) + line.price as real * line.tax
  {
    var q := line.quantity;
    assert line.price * (q + 1) == line.price * q + line.price;
    assert line.price as real * line.tax * (q + 1) as real
        == line.price as real * line.tax * q as real + line.price as real * line.tax;
  }

  /** With unique ids, `addItem` of a product already in the cart bumps exactly its line. */
  lemma AddLineExisting(items: seq<CartItem>, offer: Offer, j: nat)
    requires UniqueIds(items)
    requires Keyed.Find(items, LineId, offer.id) == Some(j)
    ensures AddLine(items, offer) == items[j := items[j].(quantity := items[j].quantity + 1)]
  {
    var line := items[j].(quantity := items[j].quantity + 1);
    var r := AddLine(items, offer);
    forall i | 0 <= i < |items|
      ensures r[i] == items[j := line][i]
    {
      if i != j {
        assert items[i].id != offer.id;
      }
    }
  }

  /**
   * `addItem` of a product not yet in the cart adds its unit price to the
   * subtotal and its unit tax to the tax total.
   */
  lemma AddLineTotalsNew(items: seq<CartItem>, offer: Offer)
    requires forall i :: 0 <= i < |items| ==> items[i].id != offer.id
    ensures Subtotal(AddLine(items, offer)) == Subtotal(items) + offer.price
    ensures TaxTotal(AddLine(items, offer)) == TaxTotal(items) + offer.price as real * offer.tax
  {
    assert Keyed.Find(items, LineId, offer.id).None?;
    AppendTotals(items, NewLine(offer));
    NewLineAmounts(offer);
  }

  /**
   * With unique ids, `addItem` of a product already in the cart adds the
   * unit price and unit tax of its existing line.
   */
  lemma AddLineTotalsExisting(items: seq<CartItem>, offer: Offer, j: nat)
    requires UniqueIds(items)
    requires j < |items| && items[j].id == offer.id
    ensures Subtotal(AddLine(items, offer)) == Subtotal(items) + items[j].price
    ensures TaxTotal(AddLine(items, offer)) == TaxTotal(items) + items[j].price as real * items[j].tax
  {
    assert Keyed.Find(items, LineId, offer.id) == Some(j);
    AddLineExisting(items, offer, j);
    BumpTotals(items, j);
  }

  /** Removing the id of the line at `j`, held by no other line, closes the gap it leaves. */
  lemma WithoutLineAt(items: seq<CartItem>, j: nat)
    requires j < |items|
    requires forall i :: 0 <= i < |items| && i != j ==> items[i].id != items[j].id
    ensures WithoutLine(items, items[j].id) == items[..j] + items[j + 1..]
  {
    Keyed.RemoveAt(items, LineId, j);
  }

  /** Closing the gap at `j` lowers the totals by that line's amounts. */
  lemma GapTotals(items: seq<CartItem>, j: nat)
    requires j < |items|
    ensures Subtotal(items[..j] + items[j + 1..]) == Subtotal(items) - LineAmount(items[j])
    ensures TaxTotal(items[..j] + items[j + 1..]) == TaxTotal(items) - LineTax(items[j])
  {
    var before, line, after := items[..j], items[j], items[j + 1..];
    assert items == (before + [line]) + after;
    SubtotalAppend(before + [line], after);
    AppendTotals(before, line);
    SubtotalAppend(before, after);
    var a, t := LineAmount(line), LineTax(line);
    assert Subtotal(items) == Subtotal(before) + a + Subtotal(after);
    assert TaxTotal(items) == TaxTotal(before) + t + TaxTotal(after);
  }

  /** With unique ids, removing a line lowers the totals by exactly that line's amounts. */
  lemma WithoutLineTotals(items: seq<CartItem>, j: nat)
    requires UniqueIds(items) && j < |items|
    ensures Subtotal(WithoutLine(items, items[j].id)) == Subtotal(items) - LineAmount(items[j])
    ensures TaxTotal(WithoutLine(items, items[j].id)) == TaxTotal(items) - LineTax(items[j])
  {
    WithoutLineAt(items, j);
    GapTotals(items, j);
  }
}
