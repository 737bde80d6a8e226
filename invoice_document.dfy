/**
 * The invoice document: the ordered list of blocks the generator hands to
 * the PDF layout engine. The layout engine itself is not modelled; blocks
 * are plain values.
 */
module InvoiceDocument {
  import opened Wrappers
  import opened InvoiceTable

  /** One document block. Spacer heights are in hundredths of an inch. */
  datatype Block =
    | Logo(path: string)
    | Spacer(height: nat)
    | Title(text: string)
    | Paragraph(text: string)
    | TableBlock(rows: seq<Row>)

  const StoreName := "UNIBOOKS"
  const SignatureLine := "Authorized Signed"
  const ThankYouLine := "Thank you for choosing Unibooks!"

  /** Python's truth value of the optional logo path: present and non-empty. */
  predicate HasLogo(path: Option<string>) {
    path.Some? && path.value != ""
  }

  function LogoBlocks(path: Option<string>): seq<Block> {
    if HasLogo(path) then [Logo(path.value)] else []
  }

  /** The title and the invoice number and date lines. */
  function Heading(date: string, invoiceNumber: string): seq<Block> {
    [Spacer(20), Title(StoreName),
     Spacer(20), Paragraph("Invoice #: " + invoiceNumber), Paragraph("Date: " + date)]
  }

  /** The customer lines and the space before the table. */
  function CustomerBlock(customerName: string, address: string): seq<Block> {
    [Spacer(20), Paragraph("Invoice to: " + customerName), Paragraph(address), Spacer(30)]
  }

  /** The payment details below the table. */
  function PaymentBlock(m: PaymentMethod): seq<Block> {
    [Spacer(50),
     Paragraph("Payment Method: " + m.kind),
     Paragraph("Account Name: " + m.accountName),
     Paragraph("Account No.: " + m.accountNumber),
     Paragraph("Checked Out On: " + m.payBy)]
  }

  /** The signature line and the thank-you line. */
  const Closing: seq<Block> := [Spacer(50), Paragraph(SignatureLine), Spacer(20), Paragraph(ThankYouLine)]

  /** The whole block list, top to bottom. */
  function Document(customerName: string, address: string, date: string, m: PaymentMethod,
                    purchases: seq<Purchase>, invoiceNumber: string, stylishUbPath: Option<string>)
    : (d: seq<Block>)
    ensures |d| == |LogoBlocks(stylishUbPath)| + 19
  {
    LogoBlocks(stylishUbPath) + Heading(date, invoiceNumber) + CustomerBlock(customerName, address)
    + [TableBlock(Table(purchases, m))] + PaymentBlock(m) + Closing
  }

  /**
   * Appends the blocks one at a time, in the generator's order. `logoPath`
   * is accepted and never used; the PDF file itself is not modelled.
   */
  method GenerateInvoice(customerName: string, address: string, date: string, m: PaymentMethod,
                         purchases: seq<Purchase>, invoiceNumber: string,
                         logoPath: Option<string>, stylishUbPath: Option<string>)
    returns (elements: seq<Block>)
    ensures elements == Document(customerName, address, date, m, purchases, invoiceNumber, stylishUbPath)
  {
    elements := [];
    if HasLogo(stylishUbPath) {
      elements := elements + [Logo(stylishUbPath.value)];
    }
    ghost var logo := elements;
    assert logo == LogoBlocks(stylishUbPath);
    elements := elements + [Spacer(20)];
    elements := elements + [Title(StoreName)];
    elements := elements + [Spacer(20)];
    elements := elements + [Paragraph("Invoice #: " + invoiceNumber)];
    elements := elements + [Paragraph("Date: " + date)];
    assert elements == logo + Heading(date, invoiceNumber);
    ghost var heading := elements;
    elements := elements + [Spacer(20)];
    elements := elements + [Paragraph("Invoice to: " + customerName)];
    elements := elements + [Paragraph(address)];
    elements := elements + [Spacer(30)];
    assert elements == heading + CustomerBlock(customerName, address);
    var table := BuildTable(purchases, m);
    elements := elements + [TableBlock(table)];
    ghost var tabled := elements;
    elements := elements + [Spacer(50)];
    elements := elements + [Paragraph("Payment Method: " + m.kind)];
    elements := elements + [Paragraph("Account Name: " + m.accountName)];
    elements := elements + [Paragraph("Account No.: " + m.accountNumber)];
    elements := elements + [Paragraph("Checked Out On: " + m.payBy)];
    assert elements == tabled + PaymentBlock(m);
    ghost var paid := elements;
    elements := elements + [Spacer(50)];
    elements := elements + [Paragraph(SignatureLine)];
    elements := elements + [Spacer(20)];
    elements := elements + [Paragraph(ThankYouLine)];
    assert elements == paid + Closing;
    assert elements == logo + Heading(date, invoiceNumber) + CustomerBlock(customerName, address)
                       + [TableBlock(table)] + PaymentBlock(m) + Closing;
  }

  /** The blocks that put something on the page: everything but spacers. */
  function Visible(bs: seq<Block>): (v: seq<Block>)
    ensures |v| <= |bs|
  {
    if bs == [] then []
    else Visible(bs[..|bs| - 1]) + (if bs[|bs| - 1].Spacer? then [] else [bs[|bs| - 1]])
  }

  lemma {:induction false} VisibleAppend(a: seq<Block>, b: seq<Block>)
    ensures Visible(a + b) == Visible(a) + Visible(b)
    decreases |b|
  {
    if b == [] {
      assert a + b == a;
    } else {
      assert (a + b)[..|a + b| - 1] == a + b[..|b| - 1];
      VisibleAppend(a, b[..|b| - 1]);
    }
  }

  /** Visible on a prefix grows by the next block unless that block is a spacer. */
  lemma VisibleStep(bs: seq<Block>, k: nat)
    requires 0 < k <= |bs|
    ensures Visible(bs[..k]) == Visible(bs[..k - 1]) + (if bs[k - 1].Spacer? then [] else [bs[k - 1]])
  {
    assert bs[..k][..k - 1] == bs[..k - 1];
  }

  lemma VisibleHeading(date: string, invoiceNumber: string)
    ensures Visible(Heading(date, invoiceNumber))
         == [Title(StoreName), Paragraph("Invoice #: " + invoiceNumber), Paragraph("Date: " + date)]
  {
    var h := Heading(date, invoiceNumber);
    assert h[..0] == [];
    VisibleStep(h, 1);
    assert Visible(h[..1]) == [];
    VisibleStep(h, 2);
    assert Visible(h[..2]) == [h[1]];
    VisibleStep(h, 3);
    assert Visible(h[..3]) == [h[1]];
    VisibleStep(h, 4);
    assert Visible(h[..4]) == [h[1], h[3]];
    VisibleStep(h, 5);
    assert h[..5] == h;
  }

  lemma VisibleCustomer(customerName: string, address: string)
    ensures Visible(CustomerBlock(customerName, address))
         == [Paragraph("Invoice to: " + customerName), Paragraph(address)]
  {
    var c := CustomerBlock(customerName, address);
    assert c[..0] == [];
    VisibleStep(c, 1);
    assert Visible(c[..1]) == [];
    VisibleStep(c, 2);
    assert Visible(c[..2]) == [c[1]];
    VisibleStep(c, 3);
    assert Visible(c[..3]) == [c[1], c[2]];
    VisibleStep(c, 4);
    assert c[..4] == c;
  }

  lemma VisiblePayment(m: PaymentMethod)
    ensures Visible(PaymentBlock(m))
         == [Paragraph("Payment Method: " + m.kind), Paragraph("Account Name: " + m.accountName),
             Paragraph("Account No.: " + m.accountNumber), Paragraph("Checked Out On: " + m.payBy)]
  {
    var f := PaymentBlock(m);
    assert f[..0] == [];
    VisibleStep(f, 1);
    VisibleStep(f, 2);
    VisibleStep(f, 3);
    VisibleStep(f, 4);
    VisibleStep(f, 5);
    assert f[..5] == f;
  }

  lemma VisibleClosing()
    ensures Visible(Closing) == [Paragraph(SignatureLine), Paragraph(ThankYouLine)]
  {
    var f := Closing;
    assert f[..0] == [];
    VisibleStep(f, 1);
    VisibleStep(f, 2);
    VisibleStep(f, 3);
    VisibleStep(f, 4);
    assert f[..4] == f;
  }

  /**
   * Spacers aside, the document reads: the logo when one is given, the
   * title, invoice number, date, customer name, address, the table, the four
   * payment lines, the signature line and the thank-you line.
   */
  lemma DocumentOrder(customerName: string, address: string, date: string, m: PaymentMethod,
                      purchases: seq<Purchase>, invoiceNumber: string, stylishUbPath: Option<string>)
    ensures Visible(Document(customerName, address, date, m, purchases, invoiceNumber, stylishUbPath))
      == LogoBlocks(stylishUbPath) +
         [Title(StoreName),
          Paragraph("Invoice #: " + invoiceNumber), Paragraph("Date: " + date),
          Paragraph("Invoice to: " + customerName), Paragraph(address),
          TableBlock(Table(purchases, m)),
          Paragraph("Payment Method: " + m.kind), Paragraph("Account Name: " + m.accountName),
          Paragraph("Account No.: " + m.accountNumber), Paragraph("Checked Out On: " + m.payBy),
          Paragraph(SignatureLine), Paragraph(ThankYouLine)]
  {
    var l, h := LogoBlocks(stylishUbPath), Heading(date, invoiceNumber);
    var c, t := CustomerBlock(customerName, address), [TableBlock(Table(purchases, m))];
    var p := PaymentBlock(m);
    VisibleAppend(l, h);
    VisibleAppend(l + h, c);
    VisibleAppend(l + h + c, t);
    VisibleAppend(l + h + c + t, p);
    VisibleAppend(l + h + c + t + p, Closing);
    VisibleHeading(date, invoiceNumber);
    VisibleCustomer(customerName, address);
    VisiblePayment(m);
    VisibleClosing();
    assert Visible(l) == l by {
      if l != [] {
        assert l[..0] == [];
      }
    }
    assert t[..0] == [];
  }

  /** The table appears exactly once, right after the customer lines. */
  lemma TableOnce(customerName: string, address: string, date: string, m: PaymentMethod,
                  purchases: seq<Purchase>, invoiceNumber: string, stylishUbPath: Option<string>)
    ensures var d := Document(customerName, address, date, m, purchases, invoiceNumber, stylishUbPath);
      var k := |LogoBlocks(stylishUbPath)| + 9;
      && d[k] == TableBlock(Table(purchases, m))
      && forall i :: 0 <= i < |d| && d[i].TableBlock? ==> i == k
  {
  }

  /**
   * A logo block appears only when the logo path is present and non-empty,
   * and then only first, showing that path.
   */
  lemma LogoFirstIfGiven(customerName: string, address: string, date: string, m: PaymentMethod,
                         purchases: seq<Purchase>, invoiceNumber: string, stylishUbPath: Option<string>)
    ensures var d := Document(customerName, address, date, m, purchases, invoiceNumber, stylishUbPath);
      && (d[0].Logo? <==> HasLogo(stylishUbPath))
      && (HasLogo(stylishUbPath) ==> d[0] == Logo(stylishUbPath.value))
      && forall i :: 0 < i < |d| ==> !d[i].Logo?
  {
  }
}
