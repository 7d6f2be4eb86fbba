/** The invoice list (`InvoiceManagementEnhanced`): the `invoices` state array, its
    filter, the create and status-change handlers, and the financial cards. */
module InvoiceManagement {
  import opened Common
  import opened Text
  import opened Seqs

  datatype InvoiceStatus = Draft | Issued | Overdue | Paid

  /** An invoice; amounts are rupees and may be fractional. */
  datatype Invoice = Invoice(
    id: string,
    invoiceNumber: string,
    lrNumber: string,
    challanNumber: Option<string>,
    consigner: string,
    consignee: string,
    invoiceDate: string,
    dueDate: string,
    amount: real,
    paidAmount: real,
    gst: real,
    status: InvoiceStatus,
    notes: Option<string>)

  /** The "Create Invoice" dialog. */
  datatype InvoiceForm = InvoiceForm(
    lrNumber: string,
    consigner: string,
    consignee: string,
    amount: NumInput<real>,
    gst: NumInput<real>)

  const NumberPrefix: string := "INV-2024-"

  const SeedInvoices: seq<Invoice> := [
    Invoice("1", "INV-2024-001", "LR-2024-001", Some("CH-2024-001"), "ABC Traders", "XYZ Enterprises",
      "2024-12-20", "2024-12-27", 5000.0, 0.0, 900.0, Issued, Some("Standard freight charges")),
    Invoice("2", "INV-2024-002", "LR-2024-002", Some("CH-2024-002"), "Tech Solutions", "Global Corp",
      "2024-12-19", "2024-12-26", 3000.0, 3000.0, 540.0, Paid, Some("Freight + Handling"))
  ]

  // ---- filteredInvoices ----

  /** The search box matches the invoice number, LR number or consigner. */
  predicate SearchHit(inv: Invoice, term: string)
  {
    Matches(inv.invoiceNumber, term) || Matches(inv.lrNumber, term) || Matches(inv.consigner, term)
  }

  function Shown(term: string, filter: Choice<InvoiceStatus>): Invoice -> bool
  {
    inv => SearchHit(inv, term) && Admits(filter, inv.status)
  }

  function FilterInvoices(invs: seq<Invoice>, term: string, filter: Choice<InvoiceStatus>): seq<Invoice>
  {
    Filter(invs, Shown(term, filter))
  }

  /** An invoice is listed exactly when one of the three fields contains the term and the
      status dropdown admits it; the listing keeps the store's order. */
  lemma FilterInvoicesSpec(invs: seq<Invoice>, term: string, filter: Choice<InvoiceStatus>)
    ensures forall inv :: inv in FilterInvoices(invs, term, filter) <==>
      inv in invs && SearchHit(inv, term) && Admits(filter, inv.status)
    ensures forall inv :: multiset(FilterInvoices(invs, term, filter))[inv] == if SearchHit(inv, term) && Admits(filter, inv.status) then multiset(invs)[inv] else 0
    ensures IsSubsequence(FilterInvoices(invs, term, filter), invs)
  {
    FilterMembers(invs, Shown(term, filter));
  }

  /** An empty search with "All Status" lists every invoice. */
  lemma FilterInvoicesEverything(invs: seq<Invoice>)
    ensures FilterInvoices(invs, "", All) == invs
  {
    forall inv | inv in invs
      ensures Shown("", All)(inv)
    {
      EmptyTermMatches(inv.invoiceNumber);
    }
    FilterAll(invs, Shown("", All));
  }

  // ---- handleCreateInvoice ----

  /** `newInvoice.lrNumber && newInvoice.consigner && newInvoice.amount` (the amount's
      text, not its value, is tested). */
  predicate CanCreate(form: InvoiceForm)
  {
    form.lrNumber != "" && form.consigner != "" && form.amount.text != ""
  }

  /** The invoice created from the dialog when the store holds `count` invoices;
      `dueDate` is the date seven days after `today`. */
  function NewInvoice(form: InvoiceForm, count: nat, id: string, today: string, dueDate: string): Invoice
  {
    Invoice(id, DocNumber(NumberPrefix, count + 1), form.lrNumber, None, form.consigner, form.consignee,
      today, dueDate, RealOrZero(form.amount), 0.0, RealOrZero(form.gst), Draft, None)
  }

  /** A new invoice is a "draft" with nothing paid; its GST is the figure typed in (0 when
      unparsable), not one computed from the amount; its number is "INV-2024-" followed by
      digits that read back as the old count plus one. */
  lemma NewInvoiceSpec(form: InvoiceForm, count: nat, id: string, today: string, dueDate: string)
    ensures NewInvoice(form, count, id, today, dueDate).status == Draft
    ensures NewInvoice(form, count, id, today, dueDate).lrNumber == form.lrNumber
    ensures NewInvoice(form, count, id, today, dueDate).consigner == form.consigner
    ensures NewInvoice(form, count, id, today, dueDate).consignee == form.consignee
    ensures NewInvoice(form, count, id, today, dueDate).invoiceDate == today
    ensures NewInvoice(form, count, id, today, dueDate).dueDate == dueDate
    ensures NewInvoice(form, count, id, today, dueDate).paidAmount == 0.0
    ensures form.gst.parsed.Some? ==> NewInvoice(form, count, id, today, dueDate).gst == form.gst.parsed.value
    ensures form.gst.parsed.None? ==> NewInvoice(form, count, id, today, dueDate).gst == 0.0
    ensures form.amount.parsed.None? ==> NewInvoice(form, count, id, today, dueDate).amount == 0.0
    ensures IsPrefix(NumberPrefix, NewInvoice(form, count, id, today, dueDate).invoiceNumber)
    ensures AllDigits(NewInvoice(form, count, id, today, dueDate).invoiceNumber[9..])
    ensures DigitsValue(NewInvoice(form, count, id, today, dueDate).invoiceNumber[9..]) == count + 1
  {
    DocNumberRoundTrip(NumberPrefix, count + 1);
  }

  // ---- handleStatusChange ----

  /** The new state of one invoice: the status picked, and the paid amount replaced
      only when one is passed. */
  function Moved(inv: Invoice, status: InvoiceStatus, paidAmount: Option<real>): Invoice
  {
    inv.(status := status, paidAmount := if paidAmount.Some? then paidAmount.value else inv.paidAmount)
  }

  /** Only invoices with the id change, and only in status and paid amount. */
  function WithStatus(invs: seq<Invoice>, id: string, status: InvoiceStatus, paidAmount: Option<real>): (r: seq<Invoice>)
    ensures |r| == |invs|
    ensures forall i :: 0 <= i < |invs| && invs[i].id != id ==> r[i] == invs[i]
    ensures forall i :: 0 <= i < |invs| && invs[i].id == id ==>
      r[i].status == status &&
      r[i].(status := invs[i].status, paidAmount := invs[i].paidAmount) == invs[i] &&
      (paidAmount.None? ==> r[i].paidAmount == invs[i].paidAmount) &&
      (paidAmount.Some? ==> r[i].paidAmount == paidAmount.value)
  {
    Map(invs, (inv: Invoice) => if inv.id == id then Moved(inv, status, paidAmount) else inv)
  }

  // ---- stats (over the filtered list) ----

  predicate IsPaid(inv: Invoice)
  {
    inv.status == Paid
  }

  predicate IsUnpaid(inv: Invoice)
  {
    inv.status != Paid
  }

  function Amount(inv: Invoice): real
  {
    inv.amount
  }

  function Received(inv: Invoice): real
  {
    inv.paidAmount
  }

  /** `inv.amount - inv.paidAmount`, also the "/ ₹remaining" shown in each row. */
  function Remaining(inv: Invoice): real
  {
    inv.amount - inv.paidAmount
  }

  function Gst(inv: Invoice): real
  {
    inv.gst
  }

  function TotalAmount(invs: seq<Invoice>): real
  {
    SumR(invs, Amount)
  }

  /** Σ amount over the invoices marked "paid". */
  function PaidTotal(invs: seq<Invoice>): real
  {
    SumR(Filter(invs, IsPaid), Amount)
  }

  /** Σ (amount − paidAmount) over the invoices not marked "paid". */
  function PendingTotal(invs: seq<Invoice>): real
  {
    SumR(Filter(invs, IsUnpaid), Remaining)
  }

  function TotalGst(invs: seq<Invoice>): real
  {
    SumR(invs, Gst)
  }

  /** The "Paid" and "Pending" cards account for the whole "Total Amount" except for the
      part payments already received on invoices not yet marked paid. */
  lemma StatsBalance(invs: seq<Invoice>)
    ensures PaidTotal(invs) + PendingTotal(invs) + SumR(Filter(invs, IsUnpaid), Received) == TotalAmount(invs)
  {
    SumRPartition(invs, Amount, IsPaid, IsUnpaid);
    SumRDifference(Filter(invs, IsUnpaid), Amount, Received, Remaining);
  }

  /** The remaining amount is shown in a row only when something is still owed. */
  predicate RemainingShown(inv: Invoice)
  {
    Remaining(inv) > 0.0
  }

  /** "Create Invoice" is rendered for admin and accounts only. */
  predicate CreateOffered(role: string)
  {
    AdminOrAccounts(role)
  }

  /** The invoices held by the component. */
  class InvoiceStore {
    var invoices: seq<Invoice>

    constructor ()
      ensures invoices == SeedInvoices
    {
      invoices := SeedInvoices;
    }

    /** `handleCreateInvoice`: a no-op unless LR number, consigner and amount are filled
        in; otherwise the new invoice goes in front and the old ones follow unchanged. */
    method Create(form: InvoiceForm, id: string, today: string, dueDate: string)
      modifies this
      ensures !CanCreate(form) ==> invoices == old(invoices)
      ensures CanCreate(form) ==> invoices == [NewInvoice(form, |old(invoices)|, id, today, dueDate)] + old(invoices)
      ensures CanCreate(form) ==> |invoices| == |old(invoices)| + 1 && invoices[1..] == old(invoices)
    {
      if CanCreate(form) {
        invoices := [NewInvoice(form, |invoices|, id, today, dueDate)] + invoices;
      }
    }

    /** `handleStatusChange(id, status, paidAmount?)`. */
    method SetStatus(id: string, status: InvoiceStatus, paidAmount: Option<real>)
      modifies this
      ensures invoices == WithStatus(old(invoices), id, status, paidAmount)
    {
      invoices := WithStatus(invoices, id, status, paidAmount);
    }
  }
}
