// The price derivations of the form (EstimateForm.tsx, lines 67-75), which
// the detail page (EstimateDetail.tsx, 29-32) and the success page
// (SuccessPage.tsx, 20) repeat on a stored price. Money amounts are
// integers; quantities, and so sums of line amounts, are reals; 0.3 and 0.4
// are the exact rationals 3/10 and 4/10.

module Pricing {
  import opened Types

  /** What one unit of an item costs: material plus labor. */
  function UnitPrice(it: Item): (r: int)
    ensures it.materialCost >= 0 && it.laborCost >= 0 ==> r >= it.materialCost && r >= it.laborCost
  {
    it.materialCost + it.laborCost
  }

  predicate NonNegativeItem(it: Item) {
    it.quantity >= 0.0 && it.materialCost >= 0 && it.laborCost >= 0
  }

  /** The item's line amount: unit price times quantity; never negative for non-negative inputs. */
  function LineTotal(it: Item): (r: real)
    ensures NonNegativeItem(it) ==> r >= 0.0
    ensures it.quantity == 1.0 ==> r == UnitPrice(it) as real
  {
    var u := UnitPrice(it) as real;
    assert NonNegativeItem(it) ==> u >= 0.0 && u * it.quantity >= 0.0 * it.quantity;
    u * it.quantity
  }

  /**
   * `items.reduce((sum, item) => sum + lineTotal, 0)`, folded from the left:
   * items with no negative quantity or cost never sum to a negative subtotal.
   */
  function Subtotal(items: seq<Item>): (r: real)
    ensures (forall i :: 0 <= i < |items| ==> NonNegativeItem(items[i])) ==> r >= 0.0
    ensures |items| == 1 ==> r == LineTotal(items[0])
    decreases |items|
  {
    if items == [] then 0.0 else Subtotal(items[..|items| - 1]) + LineTotal(items[|items| - 1])
  }

  /** The subtotal of a concatenation is the sum of the subtotals. */
  lemma {:induction false} SubtotalAppend(a: seq<Item>, b: seq<Item>)
    ensures Subtotal(a + b) == Subtotal(a) + Subtotal(b)
    decreases |b|
  {
    if b == [] {
      assert a + b == a;
    } else {
      assert (a + b)[..|a + b| - 1] == a + b[..|b| - 1];
      SubtotalAppend(a, b[..|b| - 1]);
    }
  }

  /** The subtotal can be summed from the front too. */
  lemma SubtotalCons(it: Item, rest: seq<Item>)
    ensures Subtotal([it] + rest) == LineTotal(it) + Subtotal(rest)
  {
    SubtotalAppend([it], rest);
    assert [it][..0] == [];
  }

  /** `Math.floor(x / 1000) * 1000`: the largest multiple of 1000 not above `x`. */
  function Floor1000(x: real): (r: int)
    ensures r % 1000 == 0
    ensures r as real <= x < r as real + 1000.0
  {
    (x / 1000.0).Floor * 1000
  }

  /** Those two facts determine the rounded amount. */
  lemma Floor1000Unique(x: real, k: int)
    requires k % 1000 == 0 && k as real <= x < k as real + 1000.0
    ensures Floor1000(x) == k
  {
    var r := Floor1000(x);
    assert (r - k) % 1000 == 0;
    assert -1000 < r - k < 1000;
  }

  /** Rounding an already rounded amount changes nothing. */
  lemma Floor1000Idempotent(x: real)
    ensures Floor1000(Floor1000(x) as real) == Floor1000(x)
  {
    Floor1000Unique(Floor1000(x) as real, Floor1000(x));
  }

  /** A multiple of 1000 is its own rounding. */
  lemma Floor1000OfMultiple(k: int)
    requires k % 1000 == 0
    ensures Floor1000(k as real) == k
  {
    Floor1000Unique(k as real, k);
  }

  lemma Floor1000Monotone(x: real, y: real)
    requires x <= y
    ensures Floor1000(x) <= Floor1000(y)
  {
  }

  /** The three payments of the 30 % / 40 % / remainder schedule. */
  datatype Installments = Installments(contract: int, middle: int, balance: int)

  /**
   * Lines 73-75: the deposit and the middle payment are 30 % and 40 %
   * of the final price rounded down to 1000; the balance is what is left.
   */
  function Split(finalPrice: int): (r: Installments)
    ensures r.contract + r.middle + r.balance == finalPrice
    ensures r.contract % 1000 == 0 && r.middle % 1000 == 0
    ensures r.contract as real <= finalPrice as real * 0.3 < r.contract as real + 1000.0
    ensures r.middle as real <= finalPrice as real * 0.4 < r.middle as real + 1000.0
    ensures r.contract <= r.balance
    ensures finalPrice >= 0 ==> 0 <= r.contract && 0 <= r.middle
    ensures finalPrice % 1000 == 0 ==> r.balance % 1000 == 0
  {
    var contract := Floor1000(finalPrice as real * 0.3);
    var middle := Floor1000(finalPrice as real * 0.4);
    SplitBalance(finalPrice, contract, middle);
    Installments(contract, middle, finalPrice - contract - middle)
  }

  /** What is left after two rounded-down shares of 30 % and 40 % is at least the first share. */
  lemma SplitBalance(finalPrice: int, contract: int, middle: int)
    requires contract % 1000 == 0 && middle % 1000 == 0
    requires contract as real <= finalPrice as real * 0.3
    requires middle as real <= finalPrice as real * 0.4
    ensures contract <= finalPrice - contract - middle
    ensures finalPrice % 1000 == 0 ==> (finalPrice - contract - middle) % 1000 == 0
  {
    var a, b, d := finalPrice / 1000, contract / 1000, middle / 1000;
    assert contract == 1000 * b && middle == 1000 * d;
    if finalPrice % 1000 == 0 {
      assert finalPrice == 1000 * a;
      assert finalPrice - contract - middle == 1000 * (a - b - d);
    }
  }

  /** Every figure the pages derive from one amount. */
  datatype Quote = Quote(subtotal: real, finalPrice: int, payments: Installments)

  /** The rounded final price and its installments, for a raw amount. */
  function QuoteOf(amount: real): (q: Quote)
    ensures q.subtotal == amount
    ensures q.finalPrice % 1000 == 0
    ensures q.finalPrice as real <= amount < q.finalPrice as real + 1000.0
    ensures q.payments == Split(q.finalPrice)
    ensures q.payments.contract + q.payments.middle + q.payments.balance == q.finalPrice
    ensures q.payments.contract <= q.payments.balance
    ensures amount >= 0.0 ==> 0 <= q.payments.contract && 0 <= q.payments.middle
  {
    var finalPrice := Floor1000(amount);
    Quote(amount, finalPrice, Split(finalPrice))
  }

  /** Re-quoting a final price reproduces the same figures. */
  lemma QuoteOfFinalPrice(amount: real)
    ensures QuoteOf(QuoteOf(amount).finalPrice as real).finalPrice == QuoteOf(amount).finalPrice
    ensures QuoteOf(QuoteOf(amount).finalPrice as real).payments == QuoteOf(amount).payments
  {
    Floor1000Idempotent(amount);
  }

  /** An empty item list yields zero everywhere. */
  lemma EmptyItemsQuoteZero()
    ensures QuoteOf(Subtotal([])) == Quote(0.0, 0, Installments(0, 0, 0))
  {
    Floor1000OfMultiple(0);
  }

  /** The worked example with two items summing to 130000. */
  lemma ExampleTwoItems()
    ensures var items := [
        Item(Added(1), "A", "py", 2.0, 30000, 10000, None, None),
        Item(Added(2), "B", "py", 1.0, 50000, 0, None, None)];
      QuoteOf(Subtotal(items)) == Quote(130000.0, 130000, Installments(39000, 52000, 39000))
  {
    var items := [
        Item(Added(1), "A", "py", 2.0, 30000, 10000, None, None),
        Item(Added(2), "B", "py", 1.0, 50000, 0, None, None)];
    assert items[..1][..0] == [];
    assert items[..1] == [items[0]];
    Floor1000OfMultiple(130000);
    Floor1000Unique(39000.0, 39000);
    Floor1000Unique(52000.0, 52000);
  }

  /** The worked example 1234567 -> 1234000 = 370000 + 493000 + 371000. */
  lemma ExampleRounding()
    ensures QuoteOf(1234567.0) == Quote(1234567.0, 1234000, Installments(370000, 493000, 371000))
  {
    Floor1000Unique(1234567.0, 1234000);
    assert 1234000 as real * 0.3 == 370200.0 && 1234000 as real * 0.4 == 493600.0;
    Floor1000Unique(370200.0, 370000);
    Floor1000Unique(493600.0, 493000);
    assert Split(1234000) == Installments(370000, 493000, 371000);
  }
}
