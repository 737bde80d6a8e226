/**
 * The itemised table of an invoice: a header row, one row per purchase in
 * input order, then the Subtotal, fee and Total summary rows. The subtotal
 * is the sum of the line totals the caller supplies; quantity times unit
 * price is never consulted.
 */
module InvoiceTable {
  import opened Wrappers
  import opened Currency

  /** One purchased line item; every key the generator reads is a field. */
  datatype Purchase = Purchase(bookCode: string, quantity: int, unitPrice: Kobo, totalPrice: Kobo)

  /** The payment-method record; `tax` is the flat fee added to the subtotal. */
  datatype PaymentMethod = PaymentMethod(
    kind: string, accountName: string, accountNumber: string, payBy: string, tax: Kobo)

  /**
   * A table cell: a string, the quantity passed through as it was given, or
   * a price cell, kept as the amount it prints and printed by `Shown`.
   */
  datatype Cell = Text(text: string) | Count(count: int) | Money(amount: Kobo)

  /** The text a string or price cell holds: prices as `N{amount:.2f}`. */
  function Shown(c: Cell): string
    requires !c.Count?
  {
    match c
    case Text(s) => s
    case Money(k) => Naira(k)
  }

  /** A row of the four columns Book Code, Quantity, Unit Price and Total. */
  type Row = seq<Cell>

  const HeaderRow: Row := [Text("Book Code"), Text("Quantity"), Text("Unit Price"), Text("Total")]
  const SubtotalLabel := "Subtotal"
  const FeeLabel := "Our Fees (10%)"
  const TotalLabel := "Total"

  function ItemRow(p: Purchase): Row {
    [Text(p.bookCode), Count(p.quantity), Money(p.unitPrice), Money(p.totalPrice)]
  }

  function SummaryRow(caption: string, amount: Kobo): Row {
    [Text(""), Text(""), Text(caption), Money(amount)]
  }

  /** Rows whose first two columns are blank: the three closing rows. */
  predicate IsSummaryRow(r: Row) {
    |r| == 4 && r[0] == Text("") && r[1] == Text("")
  }

  /** The sum of the supplied line totals; no single line total exceeds it. */
  function Subtotal(ps: seq<Purchase>): (total: Kobo)
    ensures forall i :: 0 <= i < |ps| ==> ps[i].totalPrice <= total
  {
    if ps == [] then 0 else Subtotal(ps[..|ps| - 1]) + ps[|ps| - 1].totalPrice
  }

  /** One row per purchase, in input order. */
  function ItemRows(ps: seq<Purchase>): (rows: seq<Row>)
    ensures |rows| == |ps|
  {
    if ps == [] then [] else ItemRows(ps[..|ps| - 1]) + [ItemRow(ps[|ps| - 1])]
  }

  /** The amount due: the subtotal plus the payment method's fee. */
  function InvoiceTotal(ps: seq<Purchase>, m: PaymentMethod): Kobo {
    Subtotal(ps) + m.tax
  }

  function SummaryRows(ps: seq<Purchase>, m: PaymentMethod): seq<Row> {
    [SummaryRow(SubtotalLabel, Subtotal(ps)), SummaryRow(FeeLabel, m.tax), SummaryRow(TotalLabel, InvoiceTotal(ps, m))]
  }

  /** The whole table the generator hands to the layout engine. */
  function Table(ps: seq<Purchase>, m: PaymentMethod): (t: seq<Row>)
    ensures |t| == |ps| + 4
  {
    [HeaderRow] + ItemRows(ps) + SummaryRows(ps, m)
  }

  /**
   * Builds the table step by step: the header, one appended row per purchase
   * while the subtotal accumulates, then the three summary rows.
   */
  method BuildTable(purchases: seq<Purchase>, m: PaymentMethod) returns (table: seq<Row>)
    ensures table == Table(purchases, m)
  {
    table := [HeaderRow];
    var totalAmount: Kobo := 0;
    for i := 0 to |purchases|
      invariant totalAmount == Subtotal(purchases[..i])
      invariant table == [HeaderRow] + ItemRows(purchases[..i])
    {
      var purchase := purchases[i];
      assert purchases[..i + 1][..i] == purchases[..i];
      totalAmount := totalAmount + purchase.totalPrice;
      table := table + [ItemRow(purchase)];
    }
    assert purchases[..|purchases|] == purchases;
    table := table + [SummaryRow(SubtotalLabel, totalAmount)];
    table := table + [SummaryRow(FeeLabel, m.tax)];
    table := table + [SummaryRow(TotalLabel, totalAmount + m.tax)];
  }

  lemma {:induction false} ItemRowsAt(ps: seq<Purchase>)
    ensures |ItemRows(ps)| == |ps|
    ensures forall i :: 0 <= i < |ps| ==> ItemRows(ps)[i] == ItemRow(ps[i])
  {
    if ps != [] {
      ItemRowsAt(ps[..|ps| - 1]);
    }
  }

  /**
   * The table has one header row, one row per purchase in input order and
   * three summary rows: Subtotal, the fee exactly as given, and Total.
   */
  lemma TableShape(ps: seq<Purchase>, m: PaymentMethod)
    ensures var t := Table(ps, m);
      && |t| == |ps| + 4
      && t[0] == HeaderRow
      && (forall i :: 0 <= i < |ps| ==> t[i + 1] == ItemRow(ps[i]))
      && t[|ps| + 1] == SummaryRow(SubtotalLabel, Subtotal(ps))
      && t[|ps| + 2] == SummaryRow(FeeLabel, m.tax)
      && t[|ps| + 3] == SummaryRow(TotalLabel, InvoiceTotal(ps, m))
  {
    ItemRowsAt(ps);
    var t, items, sums := Table(ps, m), ItemRows(ps), SummaryRows(ps, m);
    assert t == [HeaderRow] + items + sums;
    assert t[|ps| + 1..] == sums;
    forall i | 0 <= i < |ps| ensures t[i + 1] == ItemRow(ps[i]) {
      assert t[i + 1] == items[i];
    }
  }

  /**
   * A row is a summary row exactly when it is one of the last three, so the
   * styles the generator applies up to row -4 cover the header and the items
   * and those from row -3 on cover the summaries.
   */
  lemma SummaryRowsAreLastThree(ps: seq<Purchase>, m: PaymentMethod)
    ensures var t := Table(ps, m);
      forall k :: 0 <= k < |t| ==> (IsSummaryRow(t[k]) <==> k >= |t| - 3)
  {
    TableShape(ps, m);
    var t := Table(ps, m);
    forall k | 0 <= k < |t|
      ensures IsSummaryRow(t[k]) <==> k >= |t| - 3
    {
      if 1 <= k <= |ps| {
        assert t[k] == ItemRow(ps[k - 1]);
      }
    }
  }

  /** Python's reading of a negative row index into a table of `len` rows. */
  function RowAt(len: nat, k: int): int {
    if k < 0 then len + k else k
  }

  /** The style ranges ending at row -4 and starting at row -3 split the table. */
  lemma StyleRangesSplitTable(ps: seq<Purchase>, m: PaymentMethod)
    ensures var t := Table(ps, m);
      && RowAt(|t|, -4) == |ps|
      && RowAt(|t|, -3) == |ps| + 1
      && RowAt(|t|, -1) == |t| - 1
      && (forall k :: 0 <= k <= RowAt(|t|, -4) ==> !IsSummaryRow(t[k]))
      && (forall k :: RowAt(|t|, -3) <= k <= RowAt(|t|, -1) ==> IsSummaryRow(t[k]))
  {
    TableShape(ps, m);
    SummaryRowsAreLastThree(ps, m);
  }

  /** The subtotal only depends on the supplied line totals, never on quantity or unit price. */
  lemma {:induction false} SubtotalUsesOnlyTotals(ps: seq<Purchase>, qs: seq<Purchase>)
    requires |ps| == |qs|
    requires forall i :: 0 <= i < |ps| ==> ps[i].totalPrice == qs[i].totalPrice
    ensures Subtotal(ps) == Subtotal(qs)
  {
    if ps != [] {
      SubtotalUsesOnlyTotals(ps[..|ps| - 1], qs[..|qs| - 1]);
    }
  }

  /** The amount in the Total column of a row, when that cell is a price. */
  function TotalAmount(r: Row): Option<Kobo> {
    if |r| == 4 && r[3].Money? then Some(r[3].amount) else None
  }

  /** The sum of the prices in the Total column of `rows`. */
  function TotalColumnSum(rows: seq<Row>): Kobo {
    if rows == [] then 0
    else TotalColumnSum(rows[..|rows| - 1]) + TotalAmount(rows[|rows| - 1]).GetOr(0)
  }

  lemma {:induction false} TotalColumnOfItems(ps: seq<Purchase>)
    ensures TotalColumnSum(ItemRows(ps)) == Subtotal(ps)
  {
    if ps != [] {
      var rows := ItemRows(ps);
      assert rows[..|rows| - 1] == ItemRows(ps[..|ps| - 1]);
      TotalColumnOfItems(ps[..|ps| - 1]);
    }
  }

  /** The Total column of the three closing rows: subtotal, the fee as given, their sum. */
  lemma SummaryAmounts(ps: seq<Purchase>, m: PaymentMethod)
    ensures var t := Table(ps, m);
      && TotalAmount(t[|ps| + 1]) == Some(Subtotal(ps))
      && TotalAmount(t[|ps| + 2]) == Some(m.tax)
      && TotalAmount(t[|ps| + 3]) == Some(InvoiceTotal(ps, m))
  {
    TableShape(ps, m);
    var t := Table(ps, m);
    assert t[|ps| + 1][3] == Money(Subtotal(ps));
    assert t[|ps| + 2][3] == Money(m.tax);
    assert t[|ps| + 3][3] == Money(InvoiceTotal(ps, m));
  }

  /** The text printed in column `col` of a row, when that cell is a string or a price. */
  function CellText(r: Row, col: nat): Option<string> {
    if col < |r| && !r[col].Count? then Some(Shown(r[col])) else None
  }

  /** A price cell prints its amount in the currency format. */
  lemma MoneyCellText(r: Row, col: nat, amount: Kobo)
    requires col < |r| && r[col] == Money(amount)
    ensures CellText(r, col) == Some(Naira(amount))
  {
  }

  /** Each item row prints its unit price and line total in the currency format. */
  lemma ShownItemPrices(ps: seq<Purchase>, m: PaymentMethod)
    ensures var t := Table(ps, m);
      forall i :: 0 <= i < |ps| ==>
            CellText(t[i + 1], 2) == Some(Naira(ps[i].unitPrice))
            && CellText(t[i + 1], 3) == Some(Naira(ps[i].totalPrice))
  {
    TableShape(ps, m);
    var t := Table(ps, m);
    forall i | 0 <= i < |ps|
      ensures CellText(t[i + 1], 2) == Some(Naira(ps[i].unitPrice))
      ensures CellText(t[i + 1], 3) == Some(Naira(ps[i].totalPrice))
    {
      assert t[i + 1] == ItemRow(ps[i]);
      MoneyCellText(t[i + 1], 2, ps[i].unitPrice);
      MoneyCellText(t[i + 1], 3, ps[i].totalPrice);
    }
  }

  /** The summary rows print the subtotal, the fee and the total in the currency format. */
  lemma ShownSummaryPrices(ps: seq<Purchase>, m: PaymentMethod)
    ensures var t := Table(ps, m);
      && CellText(t[|ps| + 1], 3) == Some(Naira(Subtotal(ps)))
      && CellText(t[|ps| + 2], 3) == Some(Naira(m.tax))
      && CellText(t[|ps| + 3], 3) == Some(Naira(InvoiceTotal(ps, m)))
  {
    TableShape(ps, m);
    var t := Table(ps, m);
    assert t[|ps| + 1][3] == Money(Subtotal(ps));
    MoneyCellText(t[|ps| + 1], 3, Subtotal(ps));
    assert t[|ps| + 2][3] == Money(m.tax);
    MoneyCellText(t[|ps| + 2], 3, m.tax);
    assert t[|ps| + 3][3] == Money(InvoiceTotal(ps, m));
    MoneyCellText(t[|ps| + 3], 3, InvoiceTotal(ps, m));
  }

  /**
   * The Subtotal row holds exactly the sum of the Total column of the item
   * rows above it, and the header row holds no price.
   */
  lemma SubtotalSumsItemColumn(ps: seq<Purchase>, m: PaymentMethod)
    ensures var t := Table(ps, m);
      && TotalAmount(t[0]) == None
      && TotalAmount(t[|ps| + 1]) == Some(TotalColumnSum(t[1..|ps| + 1]))
  {
    var t := Table(ps, m);
    assert t[1..|ps| + 1] == ItemRows(ps);
    TotalColumnOfItems(ps);
    SummaryAmounts(ps, m);
  }

  /** An empty purchase list is not an error: it gives a zero subtotal. */
  lemma EmptyPurchases(m: PaymentMethod)
    ensures Table([], m) == [HeaderRow,
      SummaryRow(SubtotalLabel, 0), SummaryRow(FeeLabel, m.tax), SummaryRow(TotalLabel, m.tax)]
    ensures Naira(0) == "N0.00"
  {
  }

  /** The generator's own example: three books and a fee of 75 naira. */
  lemma SampleInvoice()
    ensures var ps := [Purchase("STA211", 1, 20000, 20000),
                       Purchase("STA231", 2, 15000, 30000),
                       Purchase("COS201", 1, 25000, 25000)];
            var m := PaymentMethod("Bank Transfer", "John Doe", "0123 4567 8901", "23 June 2023", 7500);
            var t := Table(ps, m);
            && t[4] == [Text(""), Text(""), Text("Subtotal"), Money(75000)]
            && t[5] == [Text(""), Text(""), Text("Our Fees (10%)"), Money(7500)]
            && t[6] == [Text(""), Text(""), Text("Total"), Money(82500)]
            && Naira(75000) == "N750.00" && Naira(7500) == "N75.00" && Naira(82500) == "N825.00"
  {
    var ps := [Purchase("STA211", 1, 20000, 20000),
               Purchase("STA231", 2, 15000, 30000),
               Purchase("COS201", 1, 25000, 25000)];
    var m := PaymentMethod("Bank Transfer", "John Doe", "0123 4567 8901", "23 June 2023", 7500);
    TableShape(ps, m);
    assert [ps[0]][..0] == [];
    assert Subtotal([ps[0]]) == 20000;
    assert ps[..2][..1] == [ps[0]];
    assert Subtotal(ps[..2]) == 50000;
    assert Subtotal(ps) == 75000;
    assert Decimal(750) == "750";
    assert Decimal(75) == "75";
    assert Decimal(825) == "825";
  }
}
