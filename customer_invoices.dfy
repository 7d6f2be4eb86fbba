/** The customer portal's invoice list (`CustomerInvoices`): the per-customer lookup, the
    search filter, the total/paid/pending cards and the "No invoices found" row. */
module CustomerInvoices {
  import opened Common
  import opened Text
  import opened Seqs

  datatype InvoiceStatus = Draft | Issued | Paid | Overdue

  /** An invoice as a customer sees it; amounts are whole rupees. */
  datatype Invoice = Invoice(
    id: string,
    invoiceNumber: string,
    lrNumber: string,
    amount: int,
    gst: int,
    date: string,
    dueDate: string,
    status: InvoiceStatus)

  /** `customerInvoices`, keyed by customer name. */
  const CustomerInvoiceTable: map<string, seq<Invoice>> := map[
    "ABC Traders" := [Invoice("1", "INV-2024-001", "LR-2024-001", 5000, 900, "2024-12-20", "2024-12-27", Issued)],
    "Tech Solutions" := [Invoice("2", "INV-2024-002", "LR-2024-002", 3000, 540, "2024-12-19", "2024-12-26", Paid)],
    "Retail Hub" := [Invoice("3", "INV-2024-003", "LR-2024-003", 7200, 1296, "2024-12-21", "2024-12-28", Draft)]
  ]

  /** `customerInvoices[customerName] || []` */
  function InvoicesOf(customer: string): seq<Invoice>
  {
    if customer in CustomerInvoiceTable then CustomerInvoiceTable[customer] else []
  }

  /** The search box matches the invoice number or the receipt number. */
  predicate SearchHit(inv: Invoice, term: string)
  {
    Matches(inv.invoiceNumber, term) || Matches(inv.lrNumber, term)
  }

  function Shown(term: string): Invoice -> bool
  {
    (inv: Invoice) => SearchHit(inv, term)
  }

  /** `filteredInvoices` */
  function FilterInvoices(customer: string, term: string): seq<Invoice>
  {
    Filter(InvoicesOf(customer), Shown(term))
  }

  /** An invoice is listed exactly when it belongs to the customer and its invoice number
      or receipt number contains the term; the listing keeps the table's order. */
  lemma FilterInvoicesSpec(customer: string, term: string)
    ensures forall inv :: inv in FilterInvoices(customer, term) <==>
      customer in CustomerInvoiceTable && inv in CustomerInvoiceTable[customer] && SearchHit(inv, term)
    ensures forall inv :: multiset(FilterInvoices(customer, term))[inv] == if SearchHit(inv, term) then multiset(InvoicesOf(customer))[inv] else 0
    ensures IsSubsequence(FilterInvoices(customer, term), InvoicesOf(customer))
  {
    FilterMembers(InvoicesOf(customer), Shown(term));
  }

  /** An empty search lists all of the customer's invoices. */
  lemma EmptySearchListsAll(customer: string)
    ensures FilterInvoices(customer, "") == InvoicesOf(customer)
  {
    forall inv | inv in InvoicesOf(customer)
      ensures Shown("")(inv)
    {
      EmptyTermMatches(inv.invoiceNumber);
    }
    FilterAll(InvoicesOf(customer), Shown(""));
  }

  // ---- stats ----

  predicate IsPaid(inv: Invoice)
  {
    inv.status == Paid
  }

  predicate IsNotPaid(inv: Invoice)
  {
    inv.status != Paid
  }

  function Amount(inv: Invoice): int
  {
    inv.amount
  }

  /** The three cards, over the filtered list. */
  function TotalAmount(invs: seq<Invoice>): int
  {
    Sum(invs, Amount)
  }

  function PaidAmount(invs: seq<Invoice>): int
  {
    Sum(Filter(invs, IsPaid), Amount)
  }

  /** Every invoice that is not "paid" counts in full, drafts included. */
  function PendingAmount(invs: seq<Invoice>): int
  {
    Sum(Filter(invs, IsNotPaid), Amount)
  }

  /** "paid" and "not paid" split the listed invoices, so the paid and pending cards add
      up to the total card, whatever the search. */
  lemma PaidPlusPending(invs: seq<Invoice>)
    ensures PaidAmount(invs) + PendingAmount(invs) == TotalAmount(invs)
  {
    SumPartition(invs, Amount, IsPaid, IsNotPaid);
  }

  /** Pending counts an unpaid invoice at its full amount, and a paid one not at all:
      prepending an invoice moves exactly one of the two cards, by its amount. */
  lemma PendingCountsFullAmount(inv: Invoice, invs: seq<Invoice>)
    ensures inv.status != Paid ==>
      PendingAmount([inv] + invs) == PendingAmount(invs) + inv.amount &&
      PaidAmount([inv] + invs) == PaidAmount(invs)
    ensures inv.status == Paid ==>
      PaidAmount([inv] + invs) == PaidAmount(invs) + inv.amount &&
      PendingAmount([inv] + invs) == PendingAmount(invs)
  {
    FilterAppend([inv], invs, IsPaid);
    FilterAppend([inv], invs, IsNotPaid);
    SumAppend([inv], Filter(invs, IsPaid), Amount);
    SumAppend([inv], Filter(invs, IsNotPaid), Amount);
  }

  /** The table body: one row per listed invoice, or the single "No invoices found" row. */
  datatype Listing = Rows(rows: seq<Invoice>) | NoneFound

  function Table(customer: string, term: string): Listing
  {
    var listed := FilterInvoices(customer, term);
    if |listed| > 0 then Rows(listed) else NoneFound
  }

  /** The "No invoices found" row appears exactly when none of the customer's invoices
      matches the search; the three cards then all read zero. */
  lemma NoneFoundIff(customer: string, term: string)
    ensures Table(customer, term) == NoneFound <==>
      forall inv :: inv in InvoicesOf(customer) ==> !SearchHit(inv, term)
    ensures Table(customer, term).Rows? ==> Table(customer, term).rows == FilterInvoices(customer, term)
    ensures Table(customer, term) == NoneFound ==>
      TotalAmount(FilterInvoices(customer, term)) == 0 &&
      PaidAmount(FilterInvoices(customer, term)) == 0 &&
      PendingAmount(FilterInvoices(customer, term)) == 0
  {
    var listed := FilterInvoices(customer, term);
    FilterMembers(InvoicesOf(customer), Shown(term));
    if |listed| > 0 {
      assert listed[0] in listed;
    }
  }

  /** A customer the table does not know gets the empty-state row, whatever the search. */
  lemma UnknownCustomerSeesNone(customer: string, term: string)
    requires customer !in CustomerInvoiceTable
    ensures InvoicesOf(customer) == []
    ensures Table(customer, term) == NoneFound
  {
  }
}
