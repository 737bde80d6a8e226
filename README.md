# Unibooks invoice generator: a verified model

This project models the invoice assembly in `generate_invoice`. Given a
customer, an address, a date, a list of purchases and a payment-method record,
it builds the itemised table and the ordered list of blocks for the PDF.

- The table has a header row, then one row per purchase in input order.
- Each item row holds the book code and the quantity unchanged. Its unit price
  and line total are printed as `N<amount to two decimals>`.
- Three summary rows close the table: Subtotal, "Our Fees (10%)" and Total.
- The subtotal is the sum of the caller-supplied line totals. It is
  accumulated in the loop; quantity times unit price is never consulted.
- The fee is the payment method's `tax`, shown exactly as given. No 10% is
  computed, despite the label.
- The Total is the subtotal plus that fee.
- The document blocks come in a fixed order. An optional logo comes first,
  then the title, the invoice number and date, the customer name and address,
  the table, four payment lines, the signature line and the thank-you line.

Modules:

- `Wrappers` (`wrappers.dfy`): `Option`, for Python's `None`.
- `Currency` (`currency.dfy`): amounts as whole numbers of kobo (hundredths of
  a naira). `Naira` renders the currency format. `ParseNaira` reads it back.
- `InvoiceTable` (`invoice_table.dfy`): the purchase and payment-method
  records, the row and cell values, and the specification function `Table`.
  `BuildTable` is the loop that appends rows and accumulates the subtotal,
  proved equal to `Table`.
- `InvoiceDocument` (`invoice_document.dfy`): the `Block` values, the
  specification function `Document`, and `GenerateInvoice`. That method
  appends the blocks one by one and is proved equal to `Document`.

A price cell is stored as `Money(amount)`, with `amount` in kobo. The text it
holds is `Shown(Money(amount)) == Naira(amount)`, which is `f"N{x:.2f}"` for
the naira value `x == amount / 100`. A price such as 19.99 is not an exact
float, but for any single amount below about 2^46 naira, `:.2f` of the
nearest float still rounds to the same two decimals, so the text is the same.
The float additions in `total_amount += total_price` add rounding of their
own, which the model does not have.
Keeping the amount separate lets the table proofs stay structural. The string
format is proved once, in `Currency`, and `ShownItemPrices` and
`ShownSummaryPrices` connect it to the table's price cells.

Three facts about the code that the model follows:

- There is no invoice-number allocator. `invoice_number` is a parameter the
  caller supplies (invoice_generator.py:9), and it is only printed
  (invoice_generator.py:35).
- An empty purchase list is not rejected. `total_amount` starts at 0
  (invoice_generator.py:48), the loop at lines 50-57 adds no rows, and the
  Subtotal row prints `N0.00` (invoice_generator.py:62; `EmptyPurchases`).
- The fee row is labelled "Our Fees (10%)", but its amount is
  `method['tax']` printed unchanged. No 10% is computed
  (invoice_generator.py:63-64).

## Model

| member | source | states |
|---|---|---|
| `Currency.Naira` | invoice_generator.py:57-64 | the text of a price cell: `N`, the whole naira, a point and two decimals; `NairaForm` gives its full shape, `ParseNairaRoundTrip` its value and `NairaInjective` that it is one-to-one |
| `Currency.Decimal` | invoice_generator.py:57 | the whole part of a formatted amount is a non-empty string of digits, with a leading zero only for the value zero |
| `Currency.ParseNaira` | invoice_generator.py:57 | a string is read as an amount only if it has the currency shape: `N`, digits, a point, two digits; `ParseNairaRoundTrip` makes it the inverse of `Naira` |
| `Currency.NairaForm` | invoice_generator.py:57 | every currency cell is `N`, the whole naira without leading zeros, a point and exactly two decimal digits |
| `Currency.ValueOfDecimal` | invoice_generator.py:57 | the decimal numeral of n reads back as n |
| `Currency.ParseNairaRoundTrip` | invoice_generator.py:57 | every formatted amount reads back as the amount it was made from |
| `Currency.NairaInjective` | invoice_generator.py:62-64 | two cells show the same text exactly when they show the same amount |
| `InvoiceTable.Subtotal` | invoice_generator.py:48-55 | `total_amount`: the sum of the supplied `total_price` fields in input order, 0 for no purchases; no line total exceeds it |
| `InvoiceTable.ItemRows` | invoice_generator.py:50-57 | there is one item row per purchase |
| `InvoiceTable.Table` | invoice_generator.py:47-64 | the table has exactly 1 + len(purchases) + 3 rows |
| `InvoiceTable.BuildTable` | invoice_generator.py:47-64 | the loop's table, built with the running subtotal, is exactly `Table(purchases, method)`; the loop invariant is "subtotal so far = sum of the totals of the processed prefix, rows so far = header + one row per processed purchase" |
| `InvoiceTable.ItemRowsAt` | invoice_generator.py:50-57 | item row i comes from purchase i, in input order |
| `InvoiceTable.TableShape` | invoice_generator.py:47-64 | row 0 is the header; row i+1 holds purchase i's code and quantity unchanged and its unit price and total as prices; the last three rows are Subtotal (sum of totals), the fee as given, and Total (their sum) |
| `InvoiceTable.SummaryRowsAreLastThree` | invoice_generator.py:62-64 | a row has blank first and second columns exactly when it is one of the last three rows |
| `InvoiceTable.StyleRangesSplitTable` | invoice_generator.py:75-86 | row -4 is the last item row (or the header) and row -3 the Subtotal row, so styles ending at -4 cover only header and item rows and styles from -3 cover only summary rows |
| `InvoiceTable.SubtotalUsesOnlyTotals` | invoice_generator.py:51-55 | two purchase lists with the same line totals give the same subtotal, whatever their quantities and unit prices |
| `InvoiceTable.TotalColumnOfItems` | invoice_generator.py:54-57 | the Total column of the item rows sums to the subtotal |
| `InvoiceTable.SummaryAmounts` | invoice_generator.py:62-64 | the Total cells of the three summary rows hold the subtotal, `method['tax']` unchanged, and subtotal + tax |
| `InvoiceTable.ShownItemPrices` | invoice_generator.py:57 | item row i prints purchase i's unit price and line total in the currency format |
| `InvoiceTable.ShownSummaryPrices` | invoice_generator.py:62-64 | the Subtotal, fee and Total rows print the subtotal, `method['tax']` and their sum in the currency format |
| `InvoiceTable.SubtotalSumsItemColumn` | invoice_generator.py:55-62 | the Subtotal cell equals the sum of the Total column over the item rows above it; the header row holds no price |
| `InvoiceTable.EmptyPurchases` | invoice_generator.py:47-64 | with no purchases the table is the header and the three summary rows, and the subtotal prints as `N0.00` |
| `InvoiceTable.SampleInvoice` | invoice_generator.py:112-124 | the example purchases (200, 300, 250) with tax 75 give Subtotal `N750.00`, fee `N75.00` and Total `N825.00` |
| `InvoiceDocument.Document` | invoice_generator.py:24-106 | the document has 19 blocks, plus one when a logo is given |
| `InvoiceDocument.GenerateInvoice` | invoice_generator.py:9-106 | the blocks appended one at a time are exactly `Document(...)`; `logo_path` has no effect |
| `InvoiceDocument.VisibleAppend` | invoice_generator.py:24-106 | dropping spacers commutes with joining block lists |
| `InvoiceDocument.VisibleHeading` | invoice_generator.py:29-36 | spacers aside, the heading is the title, the invoice number line and the date line |
| `InvoiceDocument.VisibleCustomer` | invoice_generator.py:38-44 | spacers aside, the customer section is the name line and the address line |
| `InvoiceDocument.VisiblePayment` | invoice_generator.py:94-99 | spacers aside, the payment section is the type, account name, account number and checkout lines, in that order |
| `InvoiceDocument.VisibleClosing` | invoice_generator.py:102-106 | spacers aside, the document ends with "Authorized Signed" and then the thank-you line |
| `InvoiceDocument.DocumentOrder` | invoice_generator.py:24-106 | spacers aside, the document is: optional logo, title, invoice number, date, customer name, address, the table, payment type, account name, account number, checkout date, signature line, thank-you line |
| `InvoiceDocument.TableOnce` | invoice_generator.py:92 | the table block appears exactly once, right after the customer section, and holds `Table(purchases, method)` |
| `InvoiceDocument.LogoFirstIfGiven` | invoice_generator.py:23-27 | the first block is a logo exactly when `stylish_ub_path` is present and non-empty, it shows that path, and no other block is a logo |

## Left out

- The PDF layout engine is not modelled: page template, fonts, colours, paddings, column widths, the logo's size and alignment, and writing the file named by `output_filename`. Blocks are plain values; spacer heights are kept in hundredths of an inch.
- `TableStyle` entries are not modelled as values. Only the row ranges they address are covered, by `StyleRangesSplitTable`.
- Binary floating-point rounding is not modelled. Amounts are exact in hundredths and non-negative (`Kobo` is `nat`), so a negative price or fee is outside the model, and so is the rounding that the float sum `total_amount += total_price` can build up over many lines.
- Currency.Naira: formats every amount exactly. Python's `:.2f` formats a float. Above about 2^46 naira the nearest float may no longer round to the intended hundredths, and above 2^53 an integer amount is itself rounded. Above the float range (about 1.8e308) Python raises `OverflowError`. None of these is modelled.
- Missing dictionary keys (a `KeyError` on `purchase['book_code']` or `method['tax']`) are not modelled: purchases and payment methods are records with every field present.
- Field types are fixed: book codes, dates and invoice numbers are strings, and quantities are integers. Python's `str()` of other kinds of value is not modelled.
- The module-level example call at the end of the file writes a PDF when the file is imported. That is I/O. Its data is covered by `SampleInvoice`.
- There is no invoice-number allocator, counter or concurrency in the code, so none is modelled.
- app.py (request handlers over SQL queries and mail configuration) and locustfile.py (a load-test client) are not part of this model.
