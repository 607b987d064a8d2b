/** The rows of the three input tables (invoices, receipts, client registry), with
    money as an exact integer count of minor units. */
module Records {
  import opened Dates
  import opened Tables

  /** An invoice row: `number`, `client`, `sort_date`, `total`. */
  datatype Invoice = Invoice(number: string, client: string, sortDate: Date, total: int)

  /** A receipt row: `number`, `client`, `sort_date`, `amount`. */
  datatype Receipt = Receipt(number: string, client: string, sortDate: Date, amount: int)

  /** A client registry row (`name` is the join key; the rest may be missing). */
  datatype ClientInfo = ClientInfo(
    client: string,
    displayName: Option<string>,
    address: Option<string>,
    phone: Option<string>,
    email: Option<string>)

  function InvoiceNumber(i: Invoice): string { i.number }
  function ReceiptNumber(r: Receipt): string { r.number }
  function InvoiceTotal(i: Invoice): int { i.total }
  function ReceiptAmount(r: Receipt): int { r.amount }

  /** `sort_date` order on invoices, as `.sort("sort_date")` uses it. */
  predicate InvoiceDateLe(a: Invoice, b: Invoice) { OnOrBefore(a.sortDate, b.sortDate) }
  predicate ReceiptDateLe(a: Receipt, b: Receipt) { OnOrBefore(a.sortDate, b.sortDate) }

  function InvoiceClient(i: Invoice): string { i.client }
  function ReceiptClient(r: Receipt): string { r.client }

  /** `client == c` on invoices and on receipts. */
  function IsInvoiceOf(c: string): Invoice -> bool { (i: Invoice) => i.client == c }
  function IsReceiptOf(c: string): Receipt -> bool { (r: Receipt) => r.client == c }

  function InvoiceDate(i: Invoice): Date { i.sortDate }
  function ReceiptDate(r: Receipt): Date { r.sortDate }

  /** `number` order, as `.sort("number")` uses it. */
  predicate InvoiceNumberLe(a: Invoice, b: Invoice) { StringLe(a.number, b.number) }
  predicate ReceiptNumberLe(a: Receipt, b: Receipt) { StringLe(a.number, b.number) }

  lemma NumberOrdersArePreorders()
    ensures TotalPreorder(InvoiceNumberLe)
    ensures TotalPreorder(ReceiptNumberLe)
  {
    StringOrderIsPreorder();
  }

  lemma DateOrdersArePreorders()
    ensures TotalPreorder(InvoiceDateLe)
    ensures TotalPreorder(ReceiptDateLe)
  {
  }
}
