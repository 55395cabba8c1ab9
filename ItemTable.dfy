// The item table that every printed layout draws (the three layouts of
// EstimateForm.tsx and the detail page of EstimateDetail.tsx): one row per
// item showing its unit price and line amount, then blank rows up to a
// fixed minimum so that the table keeps its visual length.

module ItemTable {
  import opened Types
  import opened Pricing

  datatype Row = ItemRow(item: Item, unitPrice: int, amount: real) | BlankRow

  function ItemRowOf(it: Item): Row {
    ItemRow(it, UnitPrice(it), LineTotal(it))
  }

  /** The amount a row contributes: nothing for a blank row. */
  function RowAmount(r: Row): real {
    if r.ItemRow? then r.amount else 0.0
  }

  /** The sum of the amounts of the rows, folded like the item subtotal. */
  function RowsTotal(rows: seq<Row>): real
    decreases |rows|
  {
    if rows == [] then 0.0 else RowsTotal(rows[..|rows| - 1]) + RowAmount(rows[|rows| - 1])
  }

  /** One row per item, in item order. */
  function ItemRows(items: seq<Item>): (r: seq<Row>)
    ensures |r| == |items|
    ensures forall i :: 0 <= i < |items| ==> r[i] == ItemRowOf(items[i])
  {
    seq(|items|, i requires 0 <= i < |items| => ItemRowOf(items[i]))
  }

  /** `Array.from({ length: Math.max(0, minRows - n) })`. */
  function Padding(n: nat, minRows: nat): (r: seq<Row>)
    ensures |r| == if n < minRows then minRows - n else 0
    ensures forall i :: 0 <= i < |r| ==> r[i] == BlankRow
  {
    seq(if n < minRows then minRows - n else 0, _ => BlankRow)
  }

  /**
   * The rendered table body: every item in order with unit price
   * material + labor and amount unit price times quantity, then blank rows.
   */
  function TableRows(items: seq<Item>, minRows: nat): (r: seq<Row>)
    ensures |r| == if |items| < minRows then minRows else |items|
    ensures forall i :: 0 <= i < |items| ==>
      r[i].ItemRow? && r[i].item == items[i]
      && r[i].unitPrice == items[i].materialCost + items[i].laborCost
      && r[i].amount == r[i].unitPrice as real * items[i].quantity
    ensures forall i :: |items| <= i < |r| ==> r[i] == BlankRow
  {
    ItemRows(items) + Padding(|items|, minRows)
  }

  lemma {:induction false} RowsTotalAppend(a: seq<Row>, b: seq<Row>)
    ensures RowsTotal(a + b) == RowsTotal(a) + RowsTotal(b)
    decreases |b|
  {
    if b == [] {
      assert a + b == a;
    } else {
      assert (a + b)[..|a + b| - 1] == a + b[..|b| - 1];
      RowsTotalAppend(a, b[..|b| - 1]);
    }
  }

  lemma {:induction false} BlankRowsTotalZero(rows: seq<Row>)
    requires forall i :: 0 <= i < |rows| ==> rows[i] == BlankRow
    ensures RowsTotal(rows) == 0.0
    decreases |rows|
  {
    if rows != [] {
      BlankRowsTotalZero(rows[..|rows| - 1]);
    }
  }

  lemma {:induction false} ItemRowsTotal(items: seq<Item>)
    ensures RowsTotal(ItemRows(items)) == Subtotal(items)
    decreases |items|
  {
    if items != [] {
      var init := items[..|items| - 1];
      assert ItemRows(items)[..|items| - 1] == ItemRows(init);
      ItemRowsTotal(init);
    }
  }

  /** Padding never changes the total: the row amounts sum to the item subtotal. */
  lemma RowsTotalIsSubtotal(items: seq<Item>, minRows: nat)
    ensures RowsTotal(TableRows(items, minRows)) == Subtotal(items)
  {
    RowsTotalAppend(ItemRows(items), Padding(|items|, minRows));
    ItemRowsTotal(items);
    BlankRowsTotalZero(Padding(|items|, minRows));
  }
}
